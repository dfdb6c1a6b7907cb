/**
 * Executor calls and what is stored of them: every call is made after the node's pre-gates,
 * with the node's own input and attempt number, and every executed commit stores the report
 * of its last call.
 */
module RunReports {
  import opened Core
  import opened Orders
  import opened Domain
  import opened Waves
  import Budget
  import Router
  import RunEffects
  import opened RunModel
  import opened CommitOrder
  import opened RunDurable
  import opened RunInvariant
  import opened RunSteps
  import opened RunOutcomes
  import opened RunContracts
  import opened RunGates
  import opened RunVerdicts

  // ---------------------------------------------------------------- the calls of a node

  /** The request of a boundary for its attempt with this number. */
  function RequestOf(S: Session, b: Boundary, attempt: nat): StageRequest {
    StageRequest(b.node, b.wave, attempt, b.stage.profile.role, b.stage.profile.model, S.task, b.input.payload.json)
  }

  /** The new calls are the boundary's, for this commit, numbered on from a, and not before the given question. */
  ghost predicate Numbered(S: Session, b: Boundary, nextSeq: nat, clock: nat, a: nat, calls: seq<ExecCall>,
                           calls': seq<ExecCall>)
  {
    && calls <= calls'
    && forall i | |calls| <= i < |calls'| ::
         calls'[i].nextSeq == nextSeq && calls'[i].asked >= clock
         && calls'[i].request == RequestOf(S, b, a + (i - |calls|))
  }

  /** The last call was answered with this report, and the cache sentinel did not object to its prompt. */
  ghost predicate ReportedLast(S: Session, calls: seq<ExecCall>, o: NodeOutput) {
    && o.Live? && calls != [] && calls[|calls| - 1].result == Finished(o.report)
    && !S.world.violates(calls[|calls| - 1].asked + 1, o.report.promptHash)
  }

  ghost predicate LastReported(S: Session, calls: seq<ExecCall>, p: Product) {
    ReportedLast(S, calls, p.output)
  }

  /** One attempt: a replayed row needs no call, any other attempt makes one. */
  ghost predicate TurnCalled(S: Session, b: Boundary, nextSeq: nat, l: Loop, t: Turn) {
    var a := AttemptOf(l.attempts, b.node);
    && l.rec.clock <= t.l.rec.clock
    && Numbered(S, b, nextSeq, l.rec.clock, a, l.rec.calls, t.l.rec.calls)
    && (CachedRow(S, nextSeq).Some? ==> t.l.rec.calls == l.rec.calls)
    && (CachedRow(S, nextSeq).None? && t.Again? ==>
          |t.l.rec.calls| == |l.rec.calls| + 1 && AttemptOf(t.l.attempts, b.node) == a + 1)
    && (CachedRow(S, nextSeq).None? && t.Ready? ==>
          |t.l.rec.calls| > |l.rec.calls| && LastReported(S, t.l.rec.calls, t.product))
  }

  lemma {:induction false} PostGatesClock(S: Session, b: Boundary, m: Budget.Meter, attempt: nat, refs: seq<GateRef>,
                                          out: Envelope, r: Recorder)
    ensures var r' := PostGates(S, b, m, attempt, refs, out, r).0; r'.calls == r.calls && r.clock <= r'.clock
    decreases |refs|
  {
    if refs != [] {
      var (r1, v) := AskGate(S, r, PostRun(S, b, m, attempt, refs[0], out, None));
      if v.Pass? {
        PostGatesClock(S, b, m, attempt, refs[1..], out, r1);
      }
    }
  }

  lemma {:induction false} RouteEdgesClock(S: Session, b: Boundary, out: Envelope, confidence: real, succs: seq<NodeId>,
                                           r: Recorder, q: Routing)
    ensures var r' := RouteEdges(S, b, out, confidence, succs, r, q).0; r'.calls == r.calls && r'.clock == r.clock
    decreases |succs|
  {
    if succs != [] {
      var c := BuildContract(S, b.node, succs[0], b.stage, out, confidence);
      var r1 := Emit(r, HandoffRequest(b.node, S.world.contractHash(c)));
      var (router', d) := Router.Route(S.policy, S.task, q.router, c);
      if d.Accept? {
        RouteEdgesClock(S, b, out, confidence, succs[1..],
                        Emit(r1, HandoffAccept(b.node, S.world.contractHash(c), d.to)),
                        Routing(router', q.routedIn[d.to := c], q.accepted + [(b.node, d.to)]));
      }
    }
  }

  /** After the output is there: no call, one more attempt counted if it is repeated, the output kept. */
  ghost predicate AfterOutput(b: Boundary, l: Loop, o: NodeOutput, t: Turn) {
    && t.l.rec.calls == l.rec.calls && l.rec.clock <= t.l.rec.clock
    && (t.Again? ==> AttemptOf(t.l.attempts, b.node) == AttemptOf(l.attempts, b.node) + 1)
    && (t.Ready? ==> t.product.output == o)
  }

  lemma {:induction false} RouteTurnAfter(S: Session, b: Boundary, l: Loop, o: NodeOutput, out: Envelope,
                                          confidence: real)
    ensures AfterOutput(b, l, o, RouteTurn(S, b, l, o, out, confidence))
  {
    RouteEdgesClock(S, b, out, confidence, Sorted(Succs(S.g, b.node)), l.rec, l.routing);
  }

  lemma {:induction false} FailedTurnAfter(S: Session, b: Boundary, l: Loop, o: NodeOutput, attempt: nat, ref: GateRef,
                                           v: GateVerdict, out: Envelope, r: Recorder)
    requires r.calls == l.rec.calls && l.rec.clock <= r.clock
    ensures AfterOutput(b, l, o, FailedTurn(S, b, l, attempt, ref, v, out, r))
  {
  }

  lemma {:induction false} JudgeTurnAfter(S: Session, b: Boundary, l: Loop, attempt: nat, o: NodeOutput)
    ensures AfterOutput(b, l, o, JudgeTurn(S, b, l, attempt, o))
  {
    var out := OutputEnvelope(S, b, o);
    PostGatesClock(S, b, l.meter, attempt, PostRefs(b.stage), out, l.rec);
    var (r, failed) := PostGates(S, b, l.meter, attempt, PostRefs(b.stage), out, l.rec);
    match failed
    case None => RouteTurnAfter(S, b, l.(rec := r), o, out, Clamp(ConfidenceOf(o)));
    case Some((ref, v)) => FailedTurnAfter(S, b, l, o, attempt, ref, v, out, r);
  }

  /** What the executor or the replayed row gives. */
  lemma {:induction false} ObtainCalled(S: Session, b: Boundary, nextSeq: nat, attempt: nat, r: Recorder)
    ensures match Obtain(S, b, nextSeq, attempt, r)
            case ForeignRow => CachedRow(S, nextSeq).Some?
            case Broken(r', _) =>
              && CachedRow(S, nextSeq).None? && r.clock <= r'.clock && |r'.calls| == |r.calls| + 1
              && Numbered(S, b, nextSeq, r.clock, attempt, r.calls, r'.calls)
            case Got(r', o) =>
              && r.clock <= r'.clock && Numbered(S, b, nextSeq, r.clock, attempt, r.calls, r'.calls)
              && (if CachedRow(S, nextSeq).Some? then r'.calls == r.calls
                  else |r'.calls| == |r.calls| + 1 && o.Live? && r'.calls[|r'.calls| - 1].asked + 1 == r'.clock
                       && r'.calls[|r'.calls| - 1].result == Finished(o.report))
  {
  }

  lemma {:induction false} MeterTurnCalled(S: Session, b: Boundary, l: Loop, o: NodeOutput)
    ensures var l' := MeterTurn(S, b, l, o);
            l'.rec.calls == l.rec.calls && l'.rec.clock == l.rec.clock && l'.attempts == l.attempts
  {
  }

  lemma {:induction false} EarlierClock(S: Session, b: Boundary, nextSeq: nat, clock: nat, clock': nat, a: nat,
                                        calls: seq<ExecCall>, calls': seq<ExecCall>)
    requires Numbered(S, b, nextSeq, clock', a, calls, calls') && clock <= clock'
    ensures Numbered(S, b, nextSeq, clock, a, calls, calls')
  {
  }

  /** The output was obtained from l on, and the sentinel is asked next. */
  ghost predicate OutputObtained(S: Session, b: Boundary, nextSeq: nat, l: Loop, r: Recorder, o: NodeOutput) {
    && l.rec.clock <= r.clock
    && Numbered(S, b, nextSeq, l.rec.clock, AttemptOf(l.attempts, b.node), l.rec.calls, r.calls)
    && (if CachedRow(S, nextSeq).Some? then r.calls == l.rec.calls
        else |r.calls| == |l.rec.calls| + 1 && o.Live? && r.calls[|r.calls| - 1].asked + 1 == r.clock
             && r.calls[|r.calls| - 1].result == Finished(o.report))
  }

  /** The calls of an attempt from l on, whose output is o. */
  ghost predicate OutputCalled(S: Session, b: Boundary, nextSeq: nat, l: Loop, l': Loop, o: NodeOutput) {
    && l'.attempts == l.attempts && l.rec.clock <= l'.rec.clock
    && Numbered(S, b, nextSeq, l.rec.clock, AttemptOf(l.attempts, b.node), l.rec.calls, l'.rec.calls)
    && (if CachedRow(S, nextSeq).Some? then l'.rec.calls == l.rec.calls
        else |l'.rec.calls| == |l.rec.calls| + 1 && ReportedLast(S, l'.rec.calls, o))
  }

  lemma {:induction false} OutputTurnCalled(S: Session, b: Boundary, nextSeq: nat, l: Loop, l': Loop, o: NodeOutput,
                                            t: Turn)
    requires OutputCalled(S, b, nextSeq, l, l', o) && AfterOutput(b, l', o, t)
    ensures TurnCalled(S, b, nextSeq, l, t)
  {
  }

  lemma {:induction false} StopTurnCalled(S: Session, b: Boundary, nextSeq: nat, l: Loop, t: Turn)
    requires t.Stop? && l.rec.clock <= t.l.rec.clock
    requires Numbered(S, b, nextSeq, l.rec.clock, AttemptOf(l.attempts, b.node), l.rec.calls, t.l.rec.calls)
    requires CachedRow(S, nextSeq).Some? ==> t.l.rec.calls == l.rec.calls
    ensures TurnCalled(S, b, nextSeq, l, t)
  {
  }

  lemma {:induction false} BrokenTurnCalled(S: Session, b: Boundary, nextSeq: nat, l: Loop, r: Recorder,
                                            reason: ReasonCode)
    requires CachedRow(S, nextSeq).None? && l.rec.clock <= r.clock && |r.calls| == |l.rec.calls| + 1
    requires Numbered(S, b, nextSeq, l.rec.clock, AttemptOf(l.attempts, b.node), l.rec.calls, r.calls)
    ensures var l1 := l.(rec := r);
            TurnCalled(S, b, nextSeq, l, RetryOr(S, b, l1, AttemptOf(l.attempts, b.node),
                                                 StopWith(b, l1, StopEscalate, NodeHalted(reason))))
  {
  }

  lemma {:induction false} ObjectedTurnCalled(S: Session, b: Boundary, nextSeq: nat, l: Loop, r: Recorder,
                                              o: NodeOutput)
    requires OutputObtained(S, b, nextSeq, l, r, o)
    ensures var l1 := l.(rec := RecordScore(Tick(r), 0.0));
            var l2 := l1.(rec := Emit(l1.rec, GateFail(b.node, CACHE_GATE, GATE_REJECT, 0.0, None, None)));
            TurnCalled(S, b, nextSeq, l, StopWith(b, l2, StopReject, NodeFailed(GATE_REJECT)))
  {
    var l1 := l.(rec := RecordScore(Tick(r), 0.0));
    var l2 := l1.(rec := Emit(l1.rec, GateFail(b.node, CACHE_GATE, GATE_REJECT, 0.0, None, None)));
    StopTurnCalled(S, b, nextSeq, l, StopWith(b, l2, StopReject, NodeFailed(GATE_REJECT)));
  }

  lemma {:induction false} VerifiedCalled(S: Session, b: Boundary, nextSeq: nat, l: Loop, r: Recorder, o: NodeOutput,
                                          l': Loop)
    requires OutputObtained(S, b, nextSeq, l, r, o)
    requires !(o.Live? && S.world.violates(r.clock, o.report.promptHash))
    requires l'.rec.calls == r.calls && l'.rec.clock >= r.clock && l'.attempts == l.attempts
    ensures OutputCalled(S, b, nextSeq, l, l', o)
  {
  }

  lemma {:induction false} GotTurnCalled(S: Session, b: Boundary, nextSeq: nat, l: Loop, r: Recorder, o: NodeOutput)
    requires OutputObtained(S, b, nextSeq, l, r, o)
    requires !(o.Live? && S.world.violates(r.clock, o.report.promptHash))
    ensures var l3 := l.(rec := if o.Live? then Tick(r) else r);
            TurnCalled(S, b, nextSeq, l,
                       JudgeTurn(S, b, MeterTurn(S, b, l3, o), AttemptOf(l.attempts, b.node), o))
  {
    var l3 := l.(rec := if o.Live? then Tick(r) else r);
    MeterTurnCalled(S, b, l3, o);
    var l4 := MeterTurn(S, b, l3, o);
    VerifiedCalled(S, b, nextSeq, l, r, o, l4);
    JudgeTurnAfter(S, b, l4, AttemptOf(l.attempts, b.node), o);
    OutputTurnCalled(S, b, nextSeq, l, l4, o, JudgeTurn(S, b, l4, AttemptOf(l.attempts, b.node), o));
  }

  lemma {:induction false} TakeTurnCalled(S: Session, b: Boundary, nextSeq: nat, l: Loop)
    ensures TurnCalled(S, b, nextSeq, l, TakeTurn(S, b, nextSeq, l))
  {
    var (r, stop) := Poll(S, l.rec);
    var attempt := AttemptOf(l.attempts, b.node);
    if stop {
      StopTurnCalled(S, b, nextSeq, l, StopWith(b, l.(rec := r), StopEscalate, NodeSuspended(None)));
    } else {
      ObtainCalled(S, b, nextSeq, attempt, r);
      match Obtain(S, b, nextSeq, attempt, r)
      case ForeignRow => StopTurnCalled(S, b, nextSeq, l, Stop(l.(rec := r), Panicked));
      case Broken(r1, reason) =>
        EarlierClock(S, b, nextSeq, l.rec.clock, r.clock, attempt, l.rec.calls, r1.calls);
        BrokenTurnCalled(S, b, nextSeq, l, r1, reason);
      case Got(r1, o) =>
        EarlierClock(S, b, nextSeq, l.rec.clock, r.clock, attempt, l.rec.calls, r1.calls);
        if o.Live? && S.world.violates(r1.clock, o.report.promptHash) {
          ObjectedTurnCalled(S, b, nextSeq, l, r1, o);
        } else {
          GotTurnCalled(S, b, nextSeq, l, r1, o);
        }
    }
  }

  lemma {:induction false} NumberedThen(S: Session, b: Boundary, nextSeq: nat, c0: nat, c1: nat, a: nat, d: nat,
                                        x: seq<ExecCall>, y: seq<ExecCall>, z: seq<ExecCall>)
    requires Numbered(S, b, nextSeq, c0, a, x, y) && c0 <= c1 && |y| == |x| + d
    requires Numbered(S, b, nextSeq, c1, a + d, y, z)
    ensures Numbered(S, b, nextSeq, c0, a, x, z)
  {
    forall i | |x| <= i < |z|
      ensures z[i].nextSeq == nextSeq && z[i].asked >= c0 && z[i].request == RequestOf(S, b, a + (i - |x|))
    {
      if i < |y| {
        assert z[i] == y[i];
      }
    }
  }

  /** All attempts of a node. */
  ghost predicate AttemptsMade(S: Session, b: Boundary, nextSeq: nat, l: Loop, t: Turn) {
    && Numbered(S, b, nextSeq, l.rec.clock, AttemptOf(l.attempts, b.node), l.rec.calls, t.l.rec.calls)
    && (CachedRow(S, nextSeq).Some? ==> t.l.rec.calls == l.rec.calls)
    && (CachedRow(S, nextSeq).None? && t.Ready? ==>
          |t.l.rec.calls| > |l.rec.calls| && LastReported(S, t.l.rec.calls, t.product))
  }

  lemma {:induction false} AttemptsCalled(S: Session, b: Boundary, nextSeq: nat, l: Loop)
    ensures AttemptsMade(S, b, nextSeq, l, Attempts(S, b, nextSeq, l))
    decreases RetriesLeft(S, b.node, l)
  {
    var t := TakeTurn(S, b, nextSeq, l);
    TakeTurnCalled(S, b, nextSeq, l);
    TurnsRunOut(S, b, nextSeq, l);
    if t.Again? {
      AttemptsCalled(S, b, nextSeq, t.l);
      AgainThen(S, b, nextSeq, l, t, Attempts(S, b, nextSeq, t.l));
    }
  }

  lemma {:induction false} AgainThen(S: Session, b: Boundary, nextSeq: nat, l: Loop, t: Turn, u: Turn)
    requires t.Again? && TurnCalled(S, b, nextSeq, l, t) && AttemptsMade(S, b, nextSeq, t.l, u)
    ensures AttemptsMade(S, b, nextSeq, l, u)
  {
    if CachedRow(S, nextSeq).None? {
      NumberedThen(S, b, nextSeq, l.rec.clock, t.l.rec.clock, AttemptOf(l.attempts, b.node), 1,
                   l.rec.calls, t.l.rec.calls, u.l.rec.calls);
    }
  }

  // ---------------------------------------------------------------- the node

  /** By this question the boundary's pre-gates had all passed. */
  ghost predicate PreJudgedBy(S: Session, b: Boundary, asks: seq<GateAsk>, clock: nat) {
    exists lo: nat, hi: nat :: PassedBy(S, b, asks, lo, hi, clock)
  }

  ghost predicate PassedBy(S: Session, b: Boundary, asks: seq<GateAsk>, lo: nat, hi: nat, clock: nat) {
    AllPassed(S, b, None, OwedBefore(b.stage), asks, lo, hi) && forall i | lo <= i < hi :: asks[i].asked < clock
  }

  lemma {:induction false} PreJudgedStays(S: Session, b: Boundary, asks: seq<GateAsk>, clock: nat, asks': seq<GateAsk>,
                                          clock': nat)
    requires PreJudgedBy(S, b, asks, clock) && asks <= asks' && clock <= clock'
    ensures PreJudgedBy(S, b, asks', clock')
  {
    var lo: nat, hi: nat :| PassedBy(S, b, asks, lo, hi, clock);
    PassedStays(S, b, None, OwedBefore(b.stage), asks, lo, hi, asks');
    assert PassedBy(S, b, asks', lo, hi, clock');
  }

  lemma {:induction false} PreGatesClock(S: Session, b: Boundary, m: Budget.Meter, attempt: nat, refs: seq<GateRef>,
                                         r: Recorder)
    ensures var r' := PreGates(S, b, m, attempt, refs, r).0;
            && r'.calls == r.calls && r.clock <= r'.clock && r.asks <= r'.asks
            && forall i | |r.asks| <= i < |r'.asks| :: r'.asks[i].asked < r'.clock
    decreases |refs|
  {
    if refs != [] {
      var run := PreRun(S, b, m, attempt, refs[0]);
      var q := OneAsk(S, r, run);
      var (r1, v) := AskGate(S, r, run);
      if v.Pass? {
        PreGatesClock(S, b, m, attempt, refs[1..], r1);
      }
    }
  }

  /** The calls of a node are its own, numbered from 0, and made after its pre-gates had passed. */
  ghost predicate NodeCalls(S: Session, b: Boundary, nextSeq: nat, calls: seq<ExecCall>, calls': seq<ExecCall>,
                            asks': seq<GateAsk>)
    requires |calls| <= |calls'|
  {
    forall i | |calls| <= i < |calls'| ::
      && calls'[i].nextSeq == nextSeq && calls'[i].request == RequestOf(S, b, i - |calls|)
      && PreJudgedBy(S, b, asks', calls'[i].asked)
  }

  /** What a node adds: its calls, each after its pre-gates, and with a commit the report of the last. */
  ghost predicate NodeCalled(S: Session, b: Boundary, s: RunState, s': RunState) {
    var k := |s.durable.commits|;
    && s.rec.asks <= s'.rec.asks && s.rec.calls <= s'.rec.calls
    && (CachedRow(S, k + 1).Some? ==> s'.rec.calls == s.rec.calls)
    && NodeCalls(S, b, k + 1, s.rec.calls, s'.rec.calls, s'.rec.asks)
    && (s'.durable == s.durable || exists p :: StoredReport(S, b, s, s', p))
  }

  ghost predicate StoredReport(S: Session, b: Boundary, s: RunState, s': RunState, p: Product) {
    && InOrder(S, s.durable, b.node) && s'.durable == CommitDurable(S, s.durable, b, p)
    && (CachedRow(S, |s.durable.commits| + 1).None? ==>
          && |s'.rec.calls| > |s.rec.calls| && LastReported(S, s'.rec.calls, p)
          && p.out == BuildOutput(S, b.node, p.output.report, b.input))
  }

  lemma {:induction false} UncalledNode(S: Session, b: Boundary, s: RunState, s': RunState)
    requires s.rec.asks <= s'.rec.asks && s'.rec.calls == s.rec.calls && s'.durable == s.durable
    ensures NodeCalled(S, b, s, s')
  {
  }

  /** The calls of the attempts, after pre-gates that were done at the given question. */
  lemma {:induction false} CallsAfterPre(S: Session, b: Boundary, nextSeq: nat, r: Recorder, calls: seq<ExecCall>,
                                         calls': seq<ExecCall>, asks': seq<GateAsk>, lo: nat)
    requires Numbered(S, b, nextSeq, r.clock, 0, calls, calls') && r.asks <= asks'
    requires PassedBy(S, b, r.asks, lo, |r.asks|, r.clock)
    ensures NodeCalls(S, b, nextSeq, calls, calls', asks')
  {
    forall i | |calls| <= i < |calls'|
      ensures calls'[i].nextSeq == nextSeq && calls'[i].request == RequestOf(S, b, i - |calls|)
      ensures PreJudgedBy(S, b, asks', calls'[i].asked)
    {
      PreJudgedStays(S, b, r.asks, r.clock, asks', calls'[i].asked);
    }
  }

  lemma {:induction false} FinishParts(S: Session, b: Boundary, s: RunState, t: Turn)
    returns (s': RunState, stored: bool)
    requires !t.Again?
    ensures s' == FinishNode(S, b, s, t).0 && s'.rec.calls == t.l.rec.calls && s'.rec.asks == t.l.rec.asks
    ensures !stored ==> s'.durable == s.durable
    ensures stored ==> t.Ready? && InOrder(S, s.durable, b.node)
                       && s'.durable == CommitDurable(S, s.durable, b, t.product)
  {
    s', stored := FinishNode(S, b, s, t).0, t.Ready? && InOrder(S, s.durable, b.node);
  }

  lemma {:induction false} FinishCalled(S: Session, b: Boundary, s: RunState, l: Loop, t: Turn, lo: nat)
    requires s.rec.asks <= l.rec.asks <= t.l.rec.asks && l.rec.calls == s.rec.calls && !t.Again?
    requires AttemptOf(l.attempts, b.node) == 0 && AttemptsMade(S, b, |s.durable.commits| + 1, l, t)
    requires PassedBy(S, b, l.rec.asks, lo, |l.rec.asks|, l.rec.clock)
    requires RunEffects.TurnProduct(S, b, |s.durable.commits| + 1, t)
    ensures NodeCalled(S, b, s, FinishNode(S, b, s, t).0)
  {
    var s', stored := FinishParts(S, b, s, t);
    CallsAfterPre(S, b, |s.durable.commits| + 1, l.rec, l.rec.calls, t.l.rec.calls, t.l.rec.asks, lo);
    if stored {
      assert StoredReport(S, b, s, s', t.product);
    }
  }

  lemma {:induction false} PreStopParts(S: Session, b: Boundary, s: RunState, r: Recorder, pre: PreEnd)
    ensures var s' := PreStop(S, b, s, r, pre).0;
            s'.rec.calls == r.calls && s'.rec.asks == r.asks && s'.durable == s.durable
  {
  }

  lemma {:induction false} PreDoneBy(S: Session, b: Boundary, before: seq<GateAsk>, r: Recorder)
    requires PreAsked(S, b, PreRefs(b.stage), before, r.asks, PrePassed)
    requires forall i | |before| <= i < |r.asks| :: r.asks[i].asked < r.clock
    ensures PassedBy(S, b, r.asks, |before|, |r.asks|, r.clock)
  {
    PreOwed(S, b, before, r.asks);
  }

  lemma {:induction false} NodeIsCalled(S: Session, s: RunState, n: NodeId, wave: nat, b: Boundary)
    requires n in S.stages && b == MakeBoundary(S, s, n, S.stages[n], wave)
    requires AttemptOf(s.attempts, n) == 0 && NoneRejected(s.rec.asks)
    ensures NodeCalled(S, b, s, RunNode(S, s, n, wave).0)
  {
    var r0 := Emit(s.rec, NodeStart(n, S.stages[n].profile.role, wave));
    var nextSeq := |s.durable.commits| + 1;
    PreGatesAsk(S, b, s.meter, 0, PreRefs(S.stages[n]), r0);
    PreGatesClock(S, b, s.meter, 0, PreRefs(S.stages[n]), r0);
    var (r, pre) := PreGates(S, b, s.meter, 0, PreRefs(S.stages[n]), r0);
    NodeUnfolded(S, s, n, wave, b, r, pre);
    if pre == PrePassed {
      var l := Loop(r, s.meter, s.routing, s.attempts, false);
      var t := Attempts(S, b, nextSeq, l);
      MadeWell(S, s, n, wave);
      PreDoneBy(S, b, s.rec.asks, r);
      AttemptsTold(S, b, nextSeq, l);
      AttemptsCalled(S, b, nextSeq, l);
      RunEffects.AttemptsProduct(S, b, nextSeq, l);
      StopIsNotCommitted(S, b, nextSeq, l);
      FinishCalled(S, b, s, l, t, |s.rec.asks|);
    } else {
      PreStopParts(S, b, s, r, pre);
      UncalledNode(S, b, s, PreStop(S, b, s, r, pre).0);
    }
  }

  // ---------------------------------------------------------------- calls in place

  /**
   * Call i was made for its commit's node: with the node's wave, role and model, the payloads
   * of all its predecessors, and as attempt number the calls before it for the same commit;
   * and by then the node's pre-gates had all passed.
   */
  ghost predicate CallPlaced(S: Session, d: Durable, asks: seq<GateAsk>, calls: seq<ExecCall>, i: nat)
    requires i < |calls|
  {
    var c := calls[i];
    && 1 <= c.nextSeq <= |d.commits| + 1 && c.nextSeq <= |Order(S)| && Order(S)[c.nextSeq - 1] in S.stages
    && var n := Order(S)[c.nextSeq - 1];
    && c.request == RequestOf(S, BoundaryAt(S, d, c.nextSeq - 1), CountFor(calls[..i], c.nextSeq))
    && Preds(S.g, n) <= d.outputs.Keys
    && c.request.nodeInput == TaskInput(S.task, map p | p in Preds(S.g, n) :: d.outputs[p].payload)
    && PreJudgedBy(S, BoundaryAt(S, d, c.nextSeq - 1), asks, c.asked)
  }

  ghost predicate CallsPlaced(S: Session, d: Durable, asks: seq<GateAsk>, calls: seq<ExecCall>) {
    forall i: nat | i < |calls| :: CallPlaced(S, d, asks, calls, i)
  }

  lemma {:induction false} CallStaysPlaced(S: Session, d: Durable, asks: seq<GateAsk>, calls: seq<ExecCall>, i: nat,
                                           asks': seq<GateAsk>, calls': seq<ExecCall>)
    requires i < |calls| && CallPlaced(S, d, asks, calls, i) && asks <= asks' && calls <= calls'
    ensures CallPlaced(S, d, asks', calls', i)
  {
    assert calls'[i] == calls[i] && calls'[..i] == calls[..i];
    PreJudgedStays(S, BoundaryAt(S, d, calls[i].nextSeq - 1), asks, calls[i].asked, asks', calls[i].asked);
  }

  lemma {:induction false} PredIsEarlier(S: Session, d: Durable, b: Boundary, p: Product, k: nat, u: NodeId)
    requires CommitDue(S, d, b, p) && k <= |d.commits| && u in Preds(S.g, Order(S)[k])
    ensures u != b.node
  {
    assert Edge(S.g, u, Order(S)[k]);
    if u == b.node {
      EdgesGoForward(S.g, S.waves, |d.commits|, k);
    }
  }

  lemma {:induction false} InputStays(S: Session, d: Durable, b: Boundary, p: Product, k: nat)
    requires CommitDue(S, d, b, p) && k <= |d.commits| && Preds(S.g, Order(S)[k]) <= d.outputs.Keys
    ensures var d', n := CommitDurable(S, d, b, p), Order(S)[k];
            && Preds(S.g, n) <= d'.outputs.Keys
            && (map u | u in Preds(S.g, n) :: d'.outputs[u].payload)
               == (map u | u in Preds(S.g, n) :: d.outputs[u].payload)
  {
    forall u | u in Preds(S.g, Order(S)[k]) ensures u != b.node {
      PredIsEarlier(S, d, b, p, k, u);
    }
    SameInput(d, CommitDurable(S, d, b, p), b.node, Preds(S.g, Order(S)[k]));
  }

  lemma {:induction false} SameInput(d: Durable, d': Durable, n: NodeId, preds: set<NodeId>)
    requires preds <= d.outputs.Keys && n !in preds
    requires n in d'.outputs && d'.outputs == d.outputs[n := d'.outputs[n]]
    ensures preds <= d'.outputs.Keys
    ensures (map u | u in preds :: d'.outputs[u].payload) == (map u | u in preds :: d.outputs[u].payload)
  {
  }

  /** Boundary and input of the k-th node are the same. */
  ghost predicate PlaceStays(S: Session, d: Durable, d': Durable, k: nat) {
    && k < |Order(S)| && Order(S)[k] in S.stages && BoundaryAt(S, d', k) == BoundaryAt(S, d, k)
    && var preds := Preds(S.g, Order(S)[k]);
       && preds <= d.outputs.Keys && preds <= d'.outputs.Keys
       && (map u | u in preds :: d'.outputs[u].payload) == (map u | u in preds :: d.outputs[u].payload)
  }

  lemma {:induction false} CommitKeepsPlace(S: Session, d: Durable, b: Boundary, p: Product, k: nat)
    requires CommitDue(S, d, b, p) && k <= |d.commits| && Preds(S.g, Order(S)[k]) <= d.outputs.Keys
    ensures PlaceStays(S, d, CommitDurable(S, d, b, p), k)
  {
    BoundaryStays(S, d, b, p, k);
    InputStays(S, d, b, p, k);
  }

  lemma {:induction false} SameCallPlaced(S: Session, d: Durable, d': Durable, asks: seq<GateAsk>, calls: seq<ExecCall>,
                                          i: nat)
    requires i < |calls| && CallPlaced(S, d, asks, calls, i) && |d.commits| <= |d'.commits|
    requires PlaceStays(S, d, d', calls[i].nextSeq - 1)
    ensures CallPlaced(S, d', asks, calls, i)
  {
  }

  lemma {:induction false} NewCallNumber(S: Session, calls: seq<ExecCall>, calls': seq<ExecCall>, k: nat, i: nat)
    requires CallsOk(S, calls, k) && calls <= calls' && |calls| <= i < |calls'|
    requires forall j | |calls| <= j < |calls'| :: calls'[j].nextSeq == k + 1
    ensures CountFor(calls'[..i], k + 1) == i - |calls|
  {
    CountForAdded(calls, calls'[..i], k + 1, k + 1);
    NoneCounted(calls, k, k + 1);
  }

  lemma {:induction false} DueInput(S: Session, d: Durable)
    requires Compiled(S) && DurableOk(S, d) && |d.commits| < |Order(S)| && Order(S)[|d.commits|] in S.stages
    ensures var n := Order(S)[|d.commits|];
            && Preds(S.g, n) <= d.outputs.Keys
            && BoundaryAt(S, d, |d.commits|).input.payload.json
               == TaskInput(S.task, map p | p in Preds(S.g, n) :: d.outputs[p].payload)
  {
    PredsPresent(S, d);
    InputOfCommitted(S, d.outputs, Order(S)[|d.commits|], S.stages[Order(S)[|d.commits|]]);
  }

  /** A call of the node that is due. */
  lemma {:induction false} NewCallPlaced(S: Session, d: Durable, asks: seq<GateAsk>, calls: seq<ExecCall>, k: nat,
                                         i: nat)
    requires k == |d.commits| < |Order(S)| && Order(S)[k] in S.stages && i < |calls| && calls[i].nextSeq == k + 1
    requires calls[i].request == RequestOf(S, BoundaryAt(S, d, k), CountFor(calls[..i], k + 1))
    requires Preds(S.g, Order(S)[k]) <= d.outputs.Keys
    requires BoundaryAt(S, d, k).input.payload.json
             == TaskInput(S.task, map p | p in Preds(S.g, Order(S)[k]) :: d.outputs[p].payload)
    requires PreJudgedBy(S, BoundaryAt(S, d, k), asks, calls[i].asked)
    ensures CallPlaced(S, d, asks, calls, i)
  {
  }

  // ---------------------------------------------------------------- reports in place

  /** Call i is the last one for commit j. */
  ghost predicate LastCallFor(calls: seq<ExecCall>, j: nat, i: nat) {
    i < |calls| && calls[i].nextSeq == j && forall k | i < k < |calls| :: calls[k].nextSeq != j
  }

  /** The response row of the k-th node holds this report, in an envelope with the commit's numbers. */
  ghost predicate RowOfReport(S: Session, k: nat, report: Report, row: CachedExecution, origin: Option<string>)
    requires k < |Order(S)|
  {
    var n := Order(S)[k];
    && row.confidence == report.confidence && row.latency == report.latency && row.provider == report.provider
    && row.tokensIn == report.tokensIn && row.tokensOut == report.tokensOut
    && row.envelope.payload == Payload(Id("out.v1"), report.payload) && origin == report.externalOrigin
    && row.envelope.id == 2 * (k + 1) == row.envelope.correlationId
    && row.envelope.from == n && row.envelope.kind == Outcome
    && (if |Succs(S.g, n)| == 1 then row.envelope.to in Succs(S.g, n) else row.envelope.to == n)
  }

  /** The call's report passed the cache sentinel and is what the k-th row holds. */
  ghost predicate ReportStored(S: Session, d: Durable, c: ExecCall, k: nat)
    requires k < |Order(S)| && k + 1 in d.responses && Order(S)[k] in d.origins
  {
    && c.result.Finished? && !S.world.violates(c.asked + 1, c.result.report.promptHash)
    && RowOfReport(S, k, c.result.report, d.responses[k + 1], d.origins[Order(S)[k]])
  }

  /** An executed commit stored the report of its last call. */
  ghost predicate RowReported(S: Session, d: Durable, calls: seq<ExecCall>, k: nat)
    requires k < |Order(S)|
  {
    && k + 1 in d.responses && Order(S)[k] in d.origins
    && exists i: nat :: LastCallFor(calls, k + 1, i) && ReportStored(S, d, calls[i], k)
  }

  ghost predicate RowsReported(S: Session, d: Durable, calls: seq<ExecCall>) {
    && |d.commits| <= |Order(S)|
    && forall k: nat | k < |d.commits| && CachedRow(S, k + 1).None? :: RowReported(S, d, calls, k)
  }

  lemma {:induction false} RowStaysReported(S: Session, d: Durable, calls: seq<ExecCall>, calls': seq<ExecCall>, k: nat)
    requires k < |Order(S)| && RowReported(S, d, calls, k) && calls <= calls'
    requires forall i | |calls| <= i < |calls'| :: calls'[i].nextSeq != k + 1
    ensures RowReported(S, d, calls', k)
  {
    var i: nat :| LastCallFor(calls, k + 1, i) && ReportStored(S, d, calls[i], k);
    assert calls'[i] == calls[i];
    assert LastCallFor(calls', k + 1, i);
  }

  lemma {:induction false} SameRowReported(S: Session, d: Durable, d': Durable, calls: seq<ExecCall>, k: nat)
    requires k < |Order(S)| && RowReported(S, d, calls, k)
    requires k + 1 in d'.responses && d'.responses[k + 1] == d.responses[k + 1]
    requires Order(S)[k] in d'.origins && d'.origins[Order(S)[k]] == d.origins[Order(S)[k]]
    ensures RowReported(S, d', calls, k)
  {
    var i: nat :| LastCallFor(calls, k + 1, i) && ReportStored(S, d, calls[i], k);
    assert ReportStored(S, d', calls[i], k);
  }

  lemma {:induction false} RowKeptByCommit(S: Session, d: Durable, b: Boundary, p: Product, calls: seq<ExecCall>,
                                           k: nat)
    requires CommitDue(S, d, b, p) && k < |d.commits| && RowReported(S, d, calls, k)
    ensures RowReported(S, CommitDurable(S, d, b, p), calls, k)
  {
    OrderDistinct(S.g, S.waves, k, |d.commits|);
    SameRowReported(S, d, CommitDurable(S, d, b, p), calls, k);
  }

  /** The envelope of a report. */
  lemma {:induction false} ReportEnvelope(S: Session, k: nat, report: Report, input: Envelope)
    requires Compiled(S) && k < |Order(S)| && input.to == Order(S)[k]
    ensures var n := Order(S)[k]; var e := BuildOutput(S, n, report, input);
            && e.payload == Payload(Id("out.v1"), report.payload) && e.id == 2 * (k + 1) == e.correlationId
            && e.from == n && e.kind == Outcome
            && (if |Succs(S.g, n)| == 1 then e.to in Succs(S.g, n) else e.to == n)
  {
    OrdinalIsPlace(S, k);
    SortedSpec(Succs(S.g, Order(S)[k]));
    var succs := Sorted(Succs(S.g, Order(S)[k]));
    if |succs| == 1 {
      assert succs[0] in succs;
    }
  }

  lemma {:induction false} NewRowReported(S: Session, d: Durable, b: Boundary, p: Product, calls: seq<ExecCall>)
    requires CommitDue(S, d, b, p) && b.input.to == b.node && LastReported(S, calls, p)
    requires calls[|calls| - 1].nextSeq == |d.commits| + 1 && p.out == BuildOutput(S, b.node, p.output.report, b.input)
    ensures RowReported(S, CommitDurable(S, d, b, p), calls, |d.commits|)
  {
    StoredRow(S, d, b, p);
    ReportedRow(S, CommitDurable(S, d, b, p), b, p, calls, |d.commits|);
  }

  lemma {:induction false} StoredRow(S: Session, d: Durable, b: Boundary, p: Product)
    requires CommitDue(S, d, b, p)
    ensures var d', k := CommitDurable(S, d, b, p), |d.commits|;
            && k + 1 in d'.responses && d'.responses[k + 1] == CommitRowOf(p)
            && Order(S)[k] in d'.origins && d'.origins[Order(S)[k]] == OriginOf(p.output)
  {
  }

  lemma {:induction false} ReportedRow(S: Session, d: Durable, b: Boundary, p: Product, calls: seq<ExecCall>, k: nat)
    requires Compiled(S) && k < |Order(S)| && b.node == b.input.to == Order(S)[k] && LastReported(S, calls, p)
    requires calls[|calls| - 1].nextSeq == k + 1 && p.out == BuildOutput(S, b.node, p.output.report, b.input)
    requires k + 1 in d.responses && d.responses[k + 1] == CommitRowOf(p)
    requires Order(S)[k] in d.origins && d.origins[Order(S)[k]] == OriginOf(p.output)
    ensures RowReported(S, d, calls, k)
  {
    ReportEnvelope(S, k, p.output.report, b.input);
    assert LastCallFor(calls, k + 1, |calls| - 1);
    assert ReportStored(S, d, calls[|calls| - 1], k);
  }

  // ---------------------------------------------------------------- one node on

  /** All calls are in place and all executed commits hold their reports. */
  ghost predicate Reports(S: Session, d: Durable, asks: seq<GateAsk>, calls: seq<ExecCall>) {
    CallsPlaced(S, d, asks, calls) && RowsReported(S, d, calls)
  }

  lemma {:induction false} NodeCallsPlaced(S: Session, s: RunState, b: Boundary, s': RunState)
    requires Compiled(S) && DurableOk(S, s.durable) && |s.durable.commits| < |Order(S)|
    requires Order(S)[|s.durable.commits|] in S.stages && b == BoundaryAt(S, s.durable, |s.durable.commits|)
    requires CallsOk(S, s.rec.calls, |s.durable.commits|) && CallsPlaced(S, s.durable, s.rec.asks, s.rec.calls)
    requires NodeCalled(S, b, s, s')
    ensures CallsPlaced(S, s.durable, s'.rec.asks, s'.rec.calls)
  {
    var d, calls, calls', k := s.durable, s.rec.calls, s'.rec.calls, |s.durable.commits|;
    DueInput(S, d);
    forall i: nat | i < |calls'| ensures CallPlaced(S, d, s'.rec.asks, calls', i) {
      if i < |calls| {
        CallStaysPlaced(S, d, s.rec.asks, calls, i, s'.rec.asks, calls');
      } else {
        NewCallNumber(S, calls, calls', k, i);
        NewCallPlaced(S, d, s'.rec.asks, calls', k, i);
      }
    }
  }

  lemma {:induction false} NodeRowsReported(S: Session, s: RunState, b: Boundary, s': RunState)
    requires RowsReported(S, s.durable, s.rec.calls) && NodeCalled(S, b, s, s')
    ensures RowsReported(S, s.durable, s'.rec.calls)
  {
    forall k: nat | k < |s.durable.commits| && CachedRow(S, k + 1).None?
      ensures RowReported(S, s.durable, s'.rec.calls, k)
    {
      RowStaysReported(S, s.durable, s.rec.calls, s'.rec.calls, k);
    }
  }

  /** A commit changes no place up to its own. */
  ghost predicate PlacesStay(S: Session, d: Durable, d': Durable, n: nat) {
    forall k: nat | k <= n && k < |Order(S)| && Preds(S.g, Order(S)[k]) <= d.outputs.Keys :: PlaceStays(S, d, d', k)
  }

  lemma {:induction false} CommitKeepsPlaces(S: Session, d: Durable, b: Boundary, p: Product)
    requires CommitDue(S, d, b, p)
    ensures PlacesStay(S, d, CommitDurable(S, d, b, p), |d.commits|)
  {
    forall k: nat | k <= |d.commits| && k < |Order(S)| && Preds(S.g, Order(S)[k]) <= d.outputs.Keys
      ensures PlaceStays(S, d, CommitDurable(S, d, b, p), k)
    {
      CommitKeepsPlace(S, d, b, p, k);
    }
  }

  lemma {:induction false} CallsStayPlaced(S: Session, d: Durable, d': Durable, asks: seq<GateAsk>,
                                           calls: seq<ExecCall>)
    requires CallsPlaced(S, d, asks, calls) && |d.commits| <= |d'.commits| && PlacesStay(S, d, d', |d.commits|)
    ensures CallsPlaced(S, d', asks, calls)
  {
    forall i: nat | i < |calls| ensures CallPlaced(S, d', asks, calls, i) {
      assert CallPlaced(S, d, asks, calls, i);
      SameCallPlaced(S, d, d', asks, calls, i);
    }
  }

  lemma {:induction false} CommitKeepsCalls(S: Session, d: Durable, b: Boundary, p: Product, asks: seq<GateAsk>,
                                            calls: seq<ExecCall>)
    requires CommitDue(S, d, b, p) && CallsPlaced(S, d, asks, calls)
    ensures CallsPlaced(S, CommitDurable(S, d, b, p), asks, calls)
  {
    CommitKeepsPlaces(S, d, b, p);
    CallsStayPlaced(S, d, CommitDurable(S, d, b, p), asks, calls);
  }

  /** Unless the commit is replayed, its output is built from the report of the last call, which was made for it. */
  ghost predicate LastIsFor(S: Session, b: Boundary, k: nat, p: Product, calls: seq<ExecCall>) {
    CachedRow(S, k + 1).None? ==>
      && LastReported(S, calls, p) && calls[|calls| - 1].nextSeq == k + 1
      && p.out == BuildOutput(S, b.node, p.output.report, b.input)
  }

  lemma {:induction false} CommitKeepsReported(S: Session, d: Durable, b: Boundary, p: Product, calls: seq<ExecCall>)
    requires CommitDue(S, d, b, p) && b.input.to == b.node && RowsReported(S, d, calls)
    requires LastIsFor(S, b, |d.commits|, p, calls)
    ensures RowsReported(S, CommitDurable(S, d, b, p), calls)
  {
    var d' := CommitDurable(S, d, b, p);
    forall k: nat | k < |d.commits| && CachedRow(S, k + 1).None? ensures RowReported(S, d', calls, k) {
      RowKeptByCommit(S, d, b, p, calls, k);
    }
    if CachedRow(S, |d.commits| + 1).None? {
      NewRowReported(S, d, b, p, calls);
    }
    OneMoreReported(S, d', calls, |d.commits|);
  }

  lemma {:induction false} OneMoreReported(S: Session, d: Durable, calls: seq<ExecCall>, n: nat)
    requires |d.commits| == n + 1 <= |Order(S)|
    requires forall k: nat | k < n && CachedRow(S, k + 1).None? :: RowReported(S, d, calls, k)
    requires CachedRow(S, n + 1).None? ==> RowReported(S, d, calls, n)
    ensures RowsReported(S, d, calls)
  {
  }

  lemma {:induction false} LastIsThisCommits(S: Session, b: Boundary, s: RunState, s': RunState, p: Product)
    requires NodeCalled(S, b, s, s') && StoredReport(S, b, s, s', p)
    ensures LastIsFor(S, b, |s.durable.commits|, p, s'.rec.calls)
  {
  }

  lemma {:induction false} StoredKeepsReports(S: Session, d: Durable, b: Boundary, p: Product, asks: seq<GateAsk>,
                                              calls: seq<ExecCall>)
    requires CommitDue(S, d, b, p) && b.input.to == b.node && Reports(S, d, asks, calls)
    requires LastIsFor(S, b, |d.commits|, p, calls)
    ensures Reports(S, CommitDurable(S, d, b, p), asks, calls)
  {
    CommitKeepsCalls(S, d, b, p, asks, calls);
    CommitKeepsReported(S, d, b, p, calls);
  }

  lemma {:induction false} BoundaryInput(S: Session, d: Durable, k: nat)
    requires k < |Order(S)| && Order(S)[k] in S.stages
    ensures var b := BoundaryAt(S, d, k); b.input.to == b.node
  {
  }

  lemma {:induction false} StoredReports(S: Session, d: Durable, b: Boundary, p: Product, asks: seq<GateAsk>,
                                         calls: seq<ExecCall>)
    requires Compiled(S) && |d.commits| < |Order(S)| && Order(S)[|d.commits|] in S.stages
    requires b == BoundaryAt(S, d, |d.commits|) && InOrder(S, d, b.node)
    requires DurableOk(S, d) && DurableOk(S, CommitDurable(S, d, b, p))
    requires Reports(S, d, asks, calls) && LastIsFor(S, b, |d.commits|, p, calls)
    ensures Reports(S, CommitDurable(S, d, b, p), asks, calls)
  {
    StoredWasDue(S, d, b, p);
    BoundaryInput(S, d, |d.commits|);
    StoredKeepsReports(S, d, b, p, asks, calls);
  }

  lemma {:induction false} ProductStored(S: Session, b: Boundary, s: RunState, s': RunState) returns (p: Product)
    requires NodeCalled(S, b, s, s') && s'.durable != s.durable
    ensures s'.durable == CommitDurable(S, s.durable, b, p) && InOrder(S, s.durable, b.node)
    ensures LastIsFor(S, b, |s.durable.commits|, p, s'.rec.calls)
  {
    p :| StoredReport(S, b, s, s', p);
    LastIsThisCommits(S, b, s, s', p);
  }

  lemma {:induction false} NodeKeepsReports(S: Session, s: RunState, b: Boundary, s': RunState)
    requires Compiled(S) && DurableOk(S, s.durable) && |s.durable.commits| < |Order(S)| && DurableOk(S, s'.durable)
    requires Order(S)[|s.durable.commits|] in S.stages && b == BoundaryAt(S, s.durable, |s.durable.commits|)
    requires CallsOk(S, s.rec.calls, |s.durable.commits|) && Reports(S, s.durable, s.rec.asks, s.rec.calls)
    requires NodeCalled(S, b, s, s')
    ensures Reports(S, s'.durable, s'.rec.asks, s'.rec.calls)
  {
    NodeCallsPlaced(S, s, b, s');
    NodeRowsReported(S, s, b, s');
    if s'.durable != s.durable {
      var p := ProductStored(S, b, s, s');
      StoredReports(S, s.durable, b, p, s'.rec.asks, s'.rec.calls);
    }
  }

  // ---------------------------------------------------------------- every run

  ghost predicate AllReported(S: Session, s: RunState) {
    AllJudged(S, s) && Reports(S, s.durable, s.rec.asks, s.rec.calls)
  }

  lemma {:induction false} DueReported(S: Session, s: RunState) returns (s1: RunState, end: NodeEnd)
    requires AllReported(S, s) && |s.durable.commits| < |Order(S)| && JustDown(S, s.rec)
    ensures (s1, end) == RunDue(S, s) && Reports(S, s1.durable, s1.rec.asks, s1.rec.calls)
    ensures end == Committed ==> AllReported(S, s1) && |s1.durable.commits| == |s.durable.commits| + 1 <= |Order(S)|
  {
    var b := BoundaryDue(S, s);
    FullBudgets(S, s, Loop(s.rec, s.meter, s.routing, s.attempts, false));
    NodeIsCalled(S, s, NodeDue(S, s), WaveDue(S, s), b);
    s1, end := DueTold(S, s);
    var _, _ := NodeUnfolds(S, s);
    OutcomeDurable(S, s, s1, end);
    NodeKeepsReports(S, s, b, s1);
  }

  lemma {:induction false} PollReported(S: Session, s: RunState, first: bool) returns (s0: RunState)
    requires AllReported(S, s)
    ensures s0 == s.(rec := PollBefore(S, s.rec, first).0) && AllReported(S, s0)
    ensures !PollBefore(S, s.rec, first).1 ==> JustDown(S, s0.rec)
  {
    PollCalls(S, s.rec, first);
    s0 := PollJudged(S, s, first);
  }

  lemma {:induction false} PollCalls(S: Session, r: Recorder, first: bool)
    ensures var r' := PollBefore(S, r, first).0; r'.calls == r.calls && r'.asks == r.asks
  {
  }

  /** The wave loop, one node on. */
  lemma {:induction false} ReportStep(S: Session, s: RunState) returns (s1: RunState, goes: bool)
    requires AllReported(S, s)
    ensures goes ==> AllReported(S, s1) && |s1.durable.commits| == |s.durable.commits| + 1 <= |Order(S)|
                     && RunFrom(S, s) == RunFrom(S, s1)
    ensures !goes ==> RunFrom(S, s).0 == s1 && Reports(S, s1.durable, s1.rec.asks, s1.rec.calls)
  {
    s1, goes := s, false;
    if |s.durable.commits| < |Order(S)| {
      RunFromUnfolds(S, s);
      var first := WaveAt(S.waves, |s.durable.commits|).1;
      var s0 := PollReported(S, s, first);
      if PollBefore(S, s.rec, first).1 {
        s1 := s0;
      } else {
        var end;
        s1, end := DueReported(S, s0);
        goes := end == Committed;
      }
    }
  }

  lemma {:induction false} RunFromReports(S: Session, s: RunState)
    requires AllReported(S, s) && |s.durable.commits| <= |Order(S)|
    ensures var s' := RunFrom(S, s).0; Reports(S, s'.durable, s'.rec.asks, s'.rec.calls)
    decreases |Order(S)| - |s.durable.commits|
  {
    var s1, goes := ReportStep(S, s);
    if goes {
      RunFromReports(S, s1);
    }
  }

  lemma {:induction false} RunReports(S: Session)
    requires Compiled(S)
    ensures var s := Run(S).0; Reports(S, s.durable, s.rec.asks, s.rec.calls)
  {
    InitInv(S);
    OpeningStops(S);
    RunFromReports(S, InitState(S));
  }

  /**
   * Every executor call of every run was made for the node of its commit after that node's
   * pre-gates had passed, with the node's own wave, role and model, the payloads of all its
   * predecessors, and the number of earlier calls as its attempt number.
   */
  lemma {:induction false} CallsAreInPlace(S: Session)
    requires Compiled(S)
    ensures var s := Run(S).0; CallsPlaced(S, s.durable, s.rec.asks, s.rec.calls)
  {
    RunReports(S);
  }

  /**
   * Every commit that was not replayed stored the report of its last executor call, to whose
   * prompt the cache sentinel did not object: payload,
   * confidence, tokens, latency, provider and declared origin, in an envelope numbered twice
   * the commit number and addressed to the sole successor or to the node itself.
   */
  lemma {:induction false} CommitsHoldReports(S: Session)
    requires Compiled(S)
    ensures var s := Run(S).0; RowsReported(S, s.durable, s.rec.calls)
  {
    RunReports(S);
  }
}
