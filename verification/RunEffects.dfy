/**
 * The remaining effects of a node's attempts: which rows or executor calls feed them, how
 * many there can be, and what a reached suspend line carries to the commit.
 */
module RunEffects {
  import opened Core
  import opened Orders
  import opened Domain
  import opened Waves
  import opened Router
  import opened Budget
  import opened RunModel
  import opened RunTrace

  // ---------------------------------------------------------------- executor calls

  /** A call made for node n while commit nextSeq was next, answered as the world answers. */
  ghost predicate CallOf(S: Session, n: NodeId, nextSeq: nat, c: ExecCall) {
    c.nextSeq == nextSeq && c.request.node == n && c.result == S.world.execute(c.asked, c.request)
  }

  /** Only calls for node n were added, at most m of them. */
  ghost predicate CallsFor(S: Session, n: NodeId, nextSeq: nat, calls: seq<ExecCall>, calls': seq<ExecCall>, m: nat) {
    && calls <= calls' && |calls'| <= |calls| + m
    && forall i | |calls| <= i < |calls'| :: CallOf(S, n, nextSeq, calls'[i])
  }

  lemma {:induction false} CallsThen(S: Session, node: NodeId, nextSeq: nat,
                                     a: seq<ExecCall>, b: seq<ExecCall>, c: seq<ExecCall>, m: nat, n: nat)
    requires CallsFor(S, node, nextSeq, a, b, m) && CallsFor(S, node, nextSeq, b, c, n)
    ensures CallsFor(S, node, nextSeq, a, c, m + n)
  {
    forall i | |a| <= i < |c| ensures CallOf(S, node, nextSeq, c[i]) {
      if i < |b| {
        assert b[i] == c[i];
      }
    }
  }

  function CallBudget(S: Session, nextSeq: nat, n: nat): nat {
    if CachedRow(S, nextSeq).Some? then 0 else n
  }

  lemma {:induction false} ObtainCalls(S: Session, b: Boundary, nextSeq: nat, attempt: nat, r: Recorder)
    ensures var got := Obtain(S, b, nextSeq, attempt, r);
            !got.ForeignRow? ==> CallsFor(S, b.node, nextSeq, r.calls, got.rec.calls, CallBudget(S, nextSeq, 1))
  {
  }

  lemma {:induction false} PostGatesCalls(S: Session, b: Boundary, m: Meter, attempt: nat, refs: seq<GateRef>,
                                          out: Envelope, r: Recorder)
    ensures PostGates(S, b, m, attempt, refs, out, r).0.calls == r.calls
  {
    PostGatesQuiet(S, b, m, attempt, refs, out, r);
  }

  lemma {:induction false} RouteEdgesCalls(S: Session, b: Boundary, out: Envelope, confidence: real,
                                           succs: seq<NodeId>, r: Recorder, q: Routing)
    ensures RouteEdges(S, b, out, confidence, succs, r, q).0.calls == r.calls
  {
    RouteEdgesQuiet(S, b, out, confidence, succs, r, q);
  }

  lemma {:induction false} RouteTurnCalls(S: Session, b: Boundary, l: Loop, o: NodeOutput, out: Envelope,
                                          confidence: real)
    ensures RouteTurn(S, b, l, o, out, confidence).l.rec.calls == l.rec.calls
  {
    RouteEdgesCalls(S, b, out, confidence, Sorted(Succs(S.g, b.node)), l.rec, l.routing);
  }

  lemma {:induction false} JudgeTurnCalls(S: Session, b: Boundary, l: Loop, attempt: nat, o: NodeOutput)
    ensures JudgeTurn(S, b, l, attempt, o).l.rec.calls == l.rec.calls
  {
    var out := OutputEnvelope(S, b, o);
    PostGatesCalls(S, b, l.meter, attempt, PostRefs(b.stage), out, l.rec);
    var (r, failed) := PostGates(S, b, l.meter, attempt, PostRefs(b.stage), out, l.rec);
    if failed.None? {
      RouteTurnCalls(S, b, l.(rec := r), o, out, Clamp(ConfidenceOf(o)));
    }
  }

  lemma {:induction false} TakeTurnCalls(S: Session, b: Boundary, nextSeq: nat, l: Loop)
    ensures var calls' := TakeTurn(S, b, nextSeq, l).l.rec.calls;
            CallsFor(S, b.node, nextSeq, l.rec.calls, calls', CallBudget(S, nextSeq, 1))
  {
    var (r, stop) := Poll(S, l.rec);
    var attempt := AttemptOf(l.attempts, b.node);
    ObtainCalls(S, b, nextSeq, attempt, r);
    var got := Obtain(S, b, nextSeq, attempt, r);
    if got.Got? {
      var o := got.output;
      var l1 := l.(rec := if o.Live? then Tick(got.rec) else got.rec);
      var _ := MeterTurnParts(S, b, l1, o);
      JudgeTurnCalls(S, b, MeterTurn(S, b, l1, o), attempt, o);
    }
  }

  /** At most one executor call per retry left plus one; none while a replayed row covers the commit. */
  lemma {:induction false} AttemptsCalls(S: Session, b: Boundary, nextSeq: nat, l: Loop)
    ensures CallsFor(S, b.node, nextSeq, l.rec.calls, Attempts(S, b, nextSeq, l).l.rec.calls,
                     CallBudget(S, nextSeq, RetriesLeft(S, b.node, l) + 1))
    decreases RetriesLeft(S, b.node, l)
  {
    var t := TakeTurn(S, b, nextSeq, l);
    TakeTurnCalls(S, b, nextSeq, l);
    TurnsRunOut(S, b, nextSeq, l);
    if t.Again? {
      AttemptsCalls(S, b, nextSeq, t.l);
      CallsThen(S, b.node, nextSeq, l.rec.calls, t.l.rec.calls, Attempts(S, b, nextSeq, t.l).l.rec.calls,
                CallBudget(S, nextSeq, 1), CallBudget(S, nextSeq, RetriesLeft(S, b.node, t.l) + 1));
    }
  }

  // ---------------------------------------------------------------- retry counters

  /** Only the node's own counters moved, and its attempt counter by at most n. */
  ghost predicate OwnCounters(node: NodeId, l: Loop, l': Loop, n: nat) {
    && l'.attempts - {node} == l.attempts - {node}
    && l'.routing.router.retries - {node} == l.routing.router.retries - {node}
    && AttemptOf(l'.attempts, node) <= AttemptOf(l.attempts, node) + n
  }

  lemma {:induction false} RouteTurnCounters(S: Session, b: Boundary, l: Loop, o: NodeOutput, out: Envelope,
                                             confidence: real)
    ensures var t := RouteTurn(S, b, l, o, out, confidence); OwnCounters(b.node, l, t.l, if t.Again? then 1 else 0)
  {
    RouteEdgesRetries(S, b, out, confidence, Sorted(Succs(S.g, b.node)), l.rec, l.routing);
  }

  lemma {:induction false} JudgeTurnCounters(S: Session, b: Boundary, l: Loop, attempt: nat, o: NodeOutput)
    ensures var t := JudgeTurn(S, b, l, attempt, o); OwnCounters(b.node, l, t.l, if t.Again? then 1 else 0)
  {
    var out := OutputEnvelope(S, b, o);
    var (r, failed) := PostGates(S, b, l.meter, attempt, PostRefs(b.stage), out, l.rec);
    if failed.None? {
      RouteTurnCounters(S, b, l.(rec := r), o, out, Clamp(ConfidenceOf(o)));
    }
  }

  lemma {:induction false} TakeTurnCounters(S: Session, b: Boundary, nextSeq: nat, l: Loop)
    ensures var t := TakeTurn(S, b, nextSeq, l); OwnCounters(b.node, l, t.l, if t.Again? then 1 else 0)
  {
    var (r, stop) := Poll(S, l.rec);
    var attempt := AttemptOf(l.attempts, b.node);
    var got := Obtain(S, b, nextSeq, attempt, r);
    if got.Got? {
      var o := got.output;
      JudgeTurnCounters(S, b, MeterTurn(S, b, l.(rec := if o.Live? then Tick(got.rec) else got.rec), o), attempt, o);
    }
  }

  /** Over all attempts the node's counter grows by at most the retries left. */
  lemma {:induction false} AttemptsCounters(S: Session, b: Boundary, nextSeq: nat, l: Loop)
    ensures OwnCounters(b.node, l, Attempts(S, b, nextSeq, l).l, RetriesLeft(S, b.node, l))
    decreases RetriesLeft(S, b.node, l)
  {
    var t := TakeTurn(S, b, nextSeq, l);
    TakeTurnCounters(S, b, nextSeq, l);
    TurnsRunOut(S, b, nextSeq, l);
    if t.Again? {
      AttemptsCounters(S, b, nextSeq, t.l);
    }
  }

  /** The router's own counter of the node: within the bound, and one past it only at the end. */
  ghost predicate RouterCounter(S: Session, n: NodeId, t: Turn) {
    && RetriesOf(t.l.routing.router, n) <= S.policy.boundedRetry + 1
    && (!t.Stop? ==> RetriesOf(t.l.routing.router, n) <= S.policy.boundedRetry)
  }

  lemma {:induction false} RouteEdgesRouterCounter(S: Session, b: Boundary, out: Envelope, confidence: real,
                                                   succs: seq<NodeId>, r: Recorder, q: Routing)
    requires RetriesOf(q.router, b.node) <= S.policy.boundedRetry
    ensures var (_, q', end) := RouteEdges(S, b, out, confidence, succs, r, q);
            && RetriesOf(q'.router, b.node) <= S.policy.boundedRetry + 1
            && (end != Returned ==> RetriesOf(q'.router, b.node) <= S.policy.boundedRetry)
    decreases |succs|
  {
    if succs != [] {
      var c := BuildContract(S, b.node, succs[0], b.stage, out, confidence);
      var r1 := Emit(r, HandoffRequest(b.node, S.world.contractHash(c)));
      var (router', d) := Route(S.policy, S.task, q.router, c);
      if d.Accept? {
        RouteEdgesRouterCounter(S, b, out, confidence, succs[1..],
                                Emit(r1, HandoffAccept(b.node, S.world.contractHash(c), d.to)),
                          Routing(router', q.routedIn[d.to := c], q.accepted + [(b.node, d.to)]));
      }
    }
  }

  lemma {:induction false} RouteTurnRouterCounter(S: Session, b: Boundary, l: Loop, o: NodeOutput, out: Envelope,
                                                  confidence: real)
    requires RetriesOf(l.routing.router, b.node) <= S.policy.boundedRetry
    ensures RouterCounter(S, b.node, RouteTurn(S, b, l, o, out, confidence))
  {
    RouteEdgesRouterCounter(S, b, out, confidence, Sorted(Succs(S.g, b.node)), l.rec, l.routing);
  }

  lemma {:induction false} JudgeTurnRouterCounter(S: Session, b: Boundary, l: Loop, attempt: nat, o: NodeOutput)
    requires RetriesOf(l.routing.router, b.node) <= S.policy.boundedRetry
    ensures RouterCounter(S, b.node, JudgeTurn(S, b, l, attempt, o))
  {
    var out := OutputEnvelope(S, b, o);
    var (r, failed) := PostGates(S, b, l.meter, attempt, PostRefs(b.stage), out, l.rec);
    if failed.None? {
      RouteTurnRouterCounter(S, b, l.(rec := r), o, out, Clamp(ConfidenceOf(o)));
    }
  }

  lemma {:induction false} TakeTurnRouterCounter(S: Session, b: Boundary, nextSeq: nat, l: Loop)
    requires RetriesOf(l.routing.router, b.node) <= S.policy.boundedRetry
    ensures RouterCounter(S, b.node, TakeTurn(S, b, nextSeq, l))
  {
    var (r, stop) := Poll(S, l.rec);
    var attempt := AttemptOf(l.attempts, b.node);
    var got := Obtain(S, b, nextSeq, attempt, r);
    if got.Got? {
      var o := got.output;
      JudgeTurnRouterCounter(S, b, MeterTurn(S, b, l.(rec := if o.Live? then Tick(got.rec) else got.rec), o), attempt,
                             o);
    }
  }

  lemma {:induction false} AttemptsRouterCounter(S: Session, b: Boundary, nextSeq: nat, l: Loop)
    requires RetriesOf(l.routing.router, b.node) <= S.policy.boundedRetry
    ensures RouterCounter(S, b.node, Attempts(S, b, nextSeq, l))
    decreases RetriesLeft(S, b.node, l)
  {
    var t := TakeTurn(S, b, nextSeq, l);
    TakeTurnRouterCounter(S, b, nextSeq, l);
    TurnsRunOut(S, b, nextSeq, l);
    if t.Again? {
      AttemptsRouterCounter(S, b, nextSeq, t.l);
    }
  }

  // ---------------------------------------------------------------- the product

  /** The executor has this report among its answers. */
  ghost predicate Reported(S: Session, report: Report) {
    exists i, request :: S.world.execute(i, request) == Finished(report)
  }

  lemma {:induction false} ObtainReported(S: Session, b: Boundary, nextSeq: nat, attempt: nat, r: Recorder)
    ensures var got := Obtain(S, b, nextSeq, attempt, r);
            got.Got? && CachedRow(S, nextSeq).None? ==> got.output.Live? && Reported(S, got.output.report)
  {
    var req := StageRequest(b.node, b.wave, attempt, b.stage.profile.role, b.stage.profile.model, S.task,
                            b.input.payload.json);
    var result := S.world.execute(r.clock, req);
    assert result.Finished? ==> S.world.execute(r.clock, req) == Finished(result.report);
  }

  /** A product is what its output yields; its output is the replayed row, or else a report of the executor. */
  ghost predicate ProductOk(S: Session, b: Boundary, nextSeq: nat, p: Product) {
    && p.confidence == Clamp(ConfidenceOf(p.output))
    && p.out == OutputEnvelope(S, b, p.output)
    && (match CachedRow(S, nextSeq)
        case Some(row) => p.output == Cached(row) && row.envelope.from == b.node
        case None => p.output.Live? && Reported(S, p.output.report))
  }

  /** Only a replayed row of another node crashes the attempts. */
  ghost predicate TurnProduct(S: Session, b: Boundary, nextSeq: nat, t: Turn) {
    && (t.Ready? ==> ProductOk(S, b, nextSeq, t.product))
    && (t.Stop? && t.end == Panicked ==>
          CachedRow(S, nextSeq).Some? && CachedRow(S, nextSeq).value.envelope.from != b.node)
  }

  /** A judged attempt never crashes, and a product is what was judged. */
  ghost predicate JudgedProduct(S: Session, b: Boundary, o: NodeOutput, t: Turn) {
    && (t.Stop? ==> t.end != Panicked)
    && (t.Ready? ==>
          && t.product.output == o && t.product.out == OutputEnvelope(S, b, o)
          && t.product.confidence == Clamp(ConfidenceOf(o)))
  }

  lemma {:induction false} RouteTurnProduct(S: Session, b: Boundary, l: Loop, o: NodeOutput)
    ensures JudgedProduct(S, b, o, RouteTurn(S, b, l, o, OutputEnvelope(S, b, o), Clamp(ConfidenceOf(o))))
  {
  }

  lemma {:induction false} JudgeTurnProduct(S: Session, b: Boundary, l: Loop, attempt: nat, o: NodeOutput)
    ensures JudgedProduct(S, b, o, JudgeTurn(S, b, l, attempt, o))
  {
    var (r, failed) := PostGates(S, b, l.meter, attempt, PostRefs(b.stage), OutputEnvelope(S, b, o), l.rec);
    if failed.None? {
      RouteTurnProduct(S, b, l.(rec := r), o);
    }
  }

  lemma {:induction false} TakeTurnProduct(S: Session, b: Boundary, nextSeq: nat, l: Loop)
    ensures TurnProduct(S, b, nextSeq, TakeTurn(S, b, nextSeq, l))
  {
    var (r, stop) := Poll(S, l.rec);
    var attempt := AttemptOf(l.attempts, b.node);
    ObtainReported(S, b, nextSeq, attempt, r);
    var got := Obtain(S, b, nextSeq, attempt, r);
    if got.Got? {
      var o := got.output;
      JudgeTurnProduct(S, b, MeterTurn(S, b, l.(rec := if o.Live? then Tick(got.rec) else got.rec), o), attempt, o);
    }
  }

  lemma {:induction false} AttemptsProduct(S: Session, b: Boundary, nextSeq: nat, l: Loop)
    ensures TurnProduct(S, b, nextSeq, Attempts(S, b, nextSeq, l))
    decreases RetriesLeft(S, b.node, l)
  {
    var t := TakeTurn(S, b, nextSeq, l);
    TakeTurnProduct(S, b, nextSeq, l);
    TurnsRunOut(S, b, nextSeq, l);
    if t.Again? {
      AttemptsProduct(S, b, nextSeq, t.l);
    }
  }

  // ---------------------------------------------------------------- suspend lines

  /** Events were only appended, and no suspend line was noted. */
  ghost predicate Appends(r: Recorder, r': Recorder) {
    r.trace <= r'.trace && r'.exceededAt == r.exceededAt
  }

  lemma {:induction false} PreGatesAppend(S: Session, b: Boundary, m: Meter, attempt: nat, refs: seq<GateRef>,
                                          r: Recorder)
    ensures Appends(r, PreGates(S, b, m, attempt, refs, r).0)
    decreases |refs|
  {
    if refs != [] {
      var run := GateRun(refs[0], b.node, if refs[0] == G0_GATE then G0Phase else PrePhase, b.input, None, b.contract,
                         Snapshot(S.budget, m, b.stage.profile.role), attempt, b.grantor, None);
      var (r1, v) := AskGate(S, r, run);
      assert Appends(r, r1);
      if v.Pass? {
        PreGatesAppend(S, b, m, attempt, refs[1..], r1);
      }
    }
  }

  lemma {:induction false} PostGatesAppend(S: Session, b: Boundary, m: Meter, attempt: nat, refs: seq<GateRef>,
                                           out: Envelope, r: Recorder)
    ensures Appends(r, PostGates(S, b, m, attempt, refs, out, r).0)
    decreases |refs|
  {
    if refs != [] {
      var (r1, v) := AskGate(S, r, PostRun(S, b, m, attempt, refs[0], out, None));
      assert Appends(r, r1);
      if v.Pass? {
        PostGatesAppend(S, b, m, attempt, refs[1..], out, r1);
      }
    }
  }

  lemma {:induction false} RouteEdgesAppend(S: Session, b: Boundary, out: Envelope, confidence: real,
                                            succs: seq<NodeId>, r: Recorder, q: Routing)
    ensures Appends(r, RouteEdges(S, b, out, confidence, succs, r, q).0)
    decreases |succs|
  {
    if succs != [] {
      var c := BuildContract(S, b.node, succs[0], b.stage, out, confidence);
      var r1 := Emit(r, HandoffRequest(b.node, S.world.contractHash(c)));
      var (router', d) := Route(S.policy, S.task, q.router, c);
      if d.Accept? {
        var r2 := Emit(r1, HandoffAccept(b.node, S.world.contractHash(c), d.to));
        RouteEdgesAppend(S, b, out, confidence, succs[1..], r2,
                         Routing(router', q.routedIn[d.to := c], q.accepted + [(b.node, d.to)]));
      }
    }
  }

  /**
   * A noted suspend line stands at a trace place inside the open block of node n, and the
   * lines of the node's role are still reached.
   */
  ghost predicate LineHolds(S: Session, role: AgentRole, p: ParseState, r: Recorder, m: Meter) {
    && CachesAgree(m)
    && (r.exceededAt.Some? ==>
          && r.exceededAt.value <= |r.trace|
          && Parse(r.trace[..r.exceededAt.value]) == p
          && SuspendReached(Snapshot(S.budget, m, role)))
  }

  ghost predicate LoopLine(S: Session, b: Boundary, p: ParseState, l: Loop) {
    LineHolds(S, b.stage.profile.role, p, l.rec, l.meter)
  }

  lemma {:induction false} AppendsKeepsLine(S: Session, role: AgentRole, p: ParseState, r: Recorder, r': Recorder,
                                            m: Meter)
    requires LineHolds(S, role, p, r, m) && Appends(r, r')
    ensures LineHolds(S, role, p, r', m)
  {
    if r.exceededAt.Some? {
      assert r'.trace[..r.exceededAt.value] == r.trace[..r.exceededAt.value];
    }
  }

  /** A line once reached stays reached while the spends only grow. */
  lemma {:induction false} ReachedStays(b: SessionBudget, m: Meter, m': Meter, role: AgentRole)
    requires SuspendReached(Snapshot(b, m, role)) && SessionSpentOf(m) <= SessionSpentOf(m')
    requires m.teamSpent <= m'.teamSpent && AgentSpentOf(m, role) <= AgentSpentOf(m', role)
    ensures SuspendReached(Snapshot(b, m', role))
  {
  }

  lemma {:induction false} NotedLine(S: Session, role: AgentRole, p: ParseState, r: Recorder, m: Meter, v: SpendVerdict)
    requires CachesAgree(m) && Parse(r.trace) == p
    requires v.SpendExceeded? <==> SuspendReached(Snapshot(S.budget, m, role))
    requires r.exceededAt.Some? ==> LineHolds(S, role, p, r, m)
    ensures LineHolds(S, role, p, NoteVerdict(r, v), m)
    ensures r.exceededAt.Some? ==> v.SpendExceeded?
    ensures !v.SpendExceeded? ==> NoteVerdict(r, v).exceededAt.None?
  {
    assert r.trace[..|r.trace|] == r.trace;
  }

  /** Metering: a line already noted stays reached, and one newly noted is reached now. */
  lemma {:induction false} MeterKeepsLine(S: Session, role: AgentRole, p: ParseState, r: Recorder, m: Meter,
                                          tokensIn: nat, tokensOut: nat)
    requires Paired(S.budget) && LineHolds(S, role, p, r, m) && Parse(r.trace) == p
    ensures var (m', v) := MeterCall(S.budget, m, S.team, role, Llm, tokensIn, tokensOut);
            && LineHolds(S, role, p, NoteVerdict(r, v), m')
            && (r.exceededAt.Some? ==> v.SpendExceeded?)
            && (!v.SpendExceeded? ==> NoteVerdict(r, v).exceededAt.None?)
  {
    MeterCallSpec(S.budget, m, S.team, role, Llm, tokensIn, tokensOut);
    var (m', v) := MeterCall(S.budget, m, S.team, role, Llm, tokensIn, tokensOut);
    if r.exceededAt.Some? {
      ReachedStays(S.budget, m, m', role);
    }
    NotedLine(S, role, p, r, m', v);
  }

  lemma {:induction false} MeterTurnLine(S: Session, b: Boundary, p: ParseState, l: Loop, o: NodeOutput)
    requires Paired(S.budget) && LoopLine(S, b, p, l) && Parse(l.rec.trace) == p && p.Inside? && p.node == b.node
    ensures LoopLine(S, b, p, MeterTurn(S, b, l, o))
  {
    var e := CallEvent(b, o);
    LlmCallTrace(b.node, l.rec.trace, e);
    var r1 := Emit(l.rec, e);
    AppendsKeepsLine(S, b.stage.profile.role, p, l.rec, r1, l.meter);
    MeterKeepsLine(S, b.stage.profile.role, p, r1, l.meter, TokensIn(o), TokensOut(o));
    var (m, v) := MeterCall(S.budget, l.meter, S.team, b.stage.profile.role, Llm, TokensIn(o), TokensOut(o));
    var r2 := NoteVerdict(r1, v);
    AppendsKeepsLine(S, b.stage.profile.role, p, r2, MeterTurn(S, b, l, o).rec, m);
  }

  lemma {:induction false} RouteTurnAppends(S: Session, b: Boundary, l: Loop, o: NodeOutput, out: Envelope,
                                            confidence: real)
    ensures var t := RouteTurn(S, b, l, o, out, confidence); Appends(l.rec, t.l.rec) && t.l.meter == l.meter
  {
    RouteEdgesAppend(S, b, out, confidence, Sorted(Succs(S.g, b.node)), l.rec, l.routing);
  }

  lemma {:induction false} JudgeTurnAppends(S: Session, b: Boundary, l: Loop, attempt: nat, o: NodeOutput)
    ensures var t := JudgeTurn(S, b, l, attempt, o); Appends(l.rec, t.l.rec) && t.l.meter == l.meter
  {
    var out := OutputEnvelope(S, b, o);
    PostGatesAppend(S, b, l.meter, attempt, PostRefs(b.stage), out, l.rec);
    var (r, failed) := PostGates(S, b, l.meter, attempt, PostRefs(b.stage), out, l.rec);
    if failed.None? {
      RouteTurnAppends(S, b, l.(rec := r), o, out, Clamp(ConfidenceOf(o)));
    }
  }

  lemma {:induction false} MeterTurnExtends(S: Session, b: Boundary, l: Loop, o: NodeOutput)
    ensures l.rec.trace <= MeterTurn(S, b, l, o).rec.trace
  {
    var _ := MeterTurnParts(S, b, l, o);
  }

  lemma {:induction false} ObtainExtends(S: Session, b: Boundary, nextSeq: nat, attempt: nat, r: Recorder)
    ensures var got := Obtain(S, b, nextSeq, attempt, r); !got.ForeignRow? ==> r.trace <= got.rec.trace
  {
  }

  /** The log only grows. */
  lemma {:induction false} TakeTurnExtends(S: Session, b: Boundary, nextSeq: nat, l: Loop)
    ensures l.rec.trace <= TakeTurn(S, b, nextSeq, l).l.rec.trace
  {
    var (r, stop) := Poll(S, l.rec);
    var attempt := AttemptOf(l.attempts, b.node);
    ObtainExtends(S, b, nextSeq, attempt, r);
    var got := Obtain(S, b, nextSeq, attempt, r);
    if !stop && got.Got? && !(got.output.Live? && S.world.violates(got.rec.clock, got.output.report.promptHash)) {
      var o := got.output;
      var l1 := l.(rec := if o.Live? then Tick(got.rec) else got.rec);
      MeterTurnExtends(S, b, l1, o);
      JudgeTurnAppends(S, b, MeterTurn(S, b, l1, o), attempt, o);
    }
  }

  lemma {:induction false} AttemptsExtend(S: Session, b: Boundary, nextSeq: nat, l: Loop)
    ensures l.rec.trace <= Attempts(S, b, nextSeq, l).l.rec.trace
    decreases RetriesLeft(S, b.node, l)
  {
    var t := TakeTurn(S, b, nextSeq, l);
    TakeTurnExtends(S, b, nextSeq, l);
    TurnsRunOut(S, b, nextSeq, l);
    if t.Again? {
      AttemptsExtend(S, b, nextSeq, t.l);
    }
  }

  lemma {:induction false} TakeTurnLine(S: Session, b: Boundary, nextSeq: nat, p: ParseState, l: Loop)
    requires Paired(S.budget) && LoopLine(S, b, p, l) && Parse(l.rec.trace) == p && p.Inside? && p.node == b.node
    ensures LoopLine(S, b, p, TakeTurn(S, b, nextSeq, l).l)
  {
    var (r, stop) := Poll(S, l.rec);
    var attempt := AttemptOf(l.attempts, b.node);
    var t := TakeTurn(S, b, nextSeq, l);
    ObtainQuiet(S, b, nextSeq, attempt, r);
    var got := Obtain(S, b, nextSeq, attempt, r);
    if !stop && got.Got? && !(got.output.Live? && S.world.violates(got.rec.clock, got.output.report.promptHash)) {
      var o := got.output;
      var l1 := l.(rec := if o.Live? then Tick(got.rec) else got.rec);
      var l2 := MeterTurn(S, b, l1, o);
      AppendsKeepsLine(S, b.stage.profile.role, p, l.rec, l1.rec, l.meter);
      MeterTurnLine(S, b, p, l1, o);
      JudgeTurnAppends(S, b, l2, attempt, o);
      AppendsKeepsLine(S, b.stage.profile.role, p, l2.rec, t.l.rec, l2.meter);
    } else {
      AppendsKeepsLine(S, b.stage.profile.role, p, l.rec, t.l.rec, l.meter);
    }
  }

  lemma {:induction false} AttemptsLine(S: Session, b: Boundary, nextSeq: nat, p: ParseState, l: Loop)
    requires Paired(S.budget) && LoopLine(S, b, p, l) && Parse(l.rec.trace) == p
    requires p.Inside? && p.node == b.node && p.wave == b.wave
    ensures LoopLine(S, b, p, Attempts(S, b, nextSeq, l).l)
    decreases RetriesLeft(S, b.node, l)
  {
    var t := TakeTurn(S, b, nextSeq, l);
    TakeTurnLine(S, b, nextSeq, p, l);
    TakeTurnTrace(S, b, nextSeq, l);
    TurnsRunOut(S, b, nextSeq, l);
    if t.Again? {
      AttemptsLine(S, b, nextSeq, p, t.l);
    }
  }
}
