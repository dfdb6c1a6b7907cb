/**
 * The event language of a run, and what the trace readers see while a run records it:
 * each step of a boundary leaves the parse of the trace inside the open node, the stop
 * event closes it, and metering charges exactly the tokens the llm.call events carry.
 */
module RunTrace {
  import opened Core
  import opened Orders
  import opened Domain
  import opened Waves
  import opened Router
  import opened Budget
  import opened RunModel
  import opened Readers

  // ---------------------------------------------------------------- the event language

  datatype Block = Block(node: NodeId, wave: nat, kind: StopKind)

  /**
   * How far a trace parses as: open, compiled, node blocks, close, seal. Inside a block only
   * events of its node and budget events occur.
   */
  datatype ParseState =
    | Nothing
    | Opened
    | Between(blocks: seq<Block>)
    | Inside(blocks: seq<Block>, node: NodeId, wave: nat)
    | Concluded(blocks: seq<Block>)
    | Sealed(blocks: seq<Block>)
    | Foreign

  predicate InteriorOf(n: NodeId, e: Event) {
    match e
    case GatePass(m, _, _) => m == n
    case GateFail(m, _, _, _, _, _) => m == n
    case HandoffRequest(m, _) => m == n
    case HandoffAccept(m, _, _) => m == n
    case LlmCall(m, _, _, _, _, _) => m == n
    case ToolCall(m, _, _, _, _) => m == n
    case BudgetEvent(_, _, _) => true
    case _ => false
  }

  function ParseStep(p: ParseState, e: Event): ParseState {
    match p
    case Nothing => if e.SessionOpen? then Opened else Foreign
    case Opened => if e.PlanCompiled? then Between([]) else Foreign
    case Between(bs) =>
      if e.NodeStart? then Inside(bs, e.node, e.wave)
      else if e.SessionClose? then Concluded(bs)
      else Foreign
    case Inside(bs, n, w) =>
      if e.NodeStop? then
        if e.node == n && e.wave == w then Between(bs + [Block(n, w, e.stopKind)]) else Foreign
      else if InteriorOf(n, e) then p
      else Foreign
    case Concluded(bs) => if e.TraceSeal? then Sealed(bs) else Foreign
    case Sealed(_) => Foreign
    case Foreign => Foreign
  }

  function Parse(es: seq<Event>): ParseState {
    if es == [] then Nothing else ParseStep(Parse(es[..|es| - 1]), es[|es| - 1])
  }

  lemma {:induction false} ParseSnoc(es: seq<Event>, e: Event)
    ensures Parse(es + [e]) == ParseStep(Parse(es), e)
  {
    assert (es + [e])[..|es|] == es;
  }

  function StepsOf(bs: seq<Block>): seq<NodeStep> {
    seq(|bs|, i requires 0 <= i < |bs| => NodeStep(bs[i].node, bs[i].wave))
  }

  /** The node path a reader projects is the list of blocks, whatever the trace. */
  lemma {:induction false} NodePathIsBlocks(es: seq<Event>)
    ensures match Parse(es)
            case Nothing => NodePath(es) == []
            case Opened => NodePath(es) == []
            case Between(bs) => NodePath(es) == StepsOf(bs)
            case Inside(bs, n, w) => NodePath(es) == StepsOf(bs) + [NodeStep(n, w)]
            case Concluded(bs) => NodePath(es) == StepsOf(bs)
            case Sealed(bs) => NodePath(es) == StepsOf(bs)
            case Foreign => true
    decreases |es|
  {
    if es != [] {
      NodePathIsBlocks(es[..|es| - 1]);
      var p := Parse(es[..|es| - 1]);
      if p.Inside? && es[|es| - 1].NodeStop? {
        var b := Block(p.node, p.wave, es[|es| - 1].stopKind);
        assert StepsOf(p.blocks + [b]) == StepsOf(p.blocks) + [NodeStep(p.node, p.wave)];
      }
    }
  }

  // ---------------------------------------------------------------- quiet steps

  /** From es to es' only token-free interior events of node n were appended. */
  ghost predicate Quiet(n: NodeId, es: seq<Event>, es': seq<Event>) {
    && |es| <= |es'|
    && (Parse(es).Inside? && Parse(es).node == n ==> Parse(es') == Parse(es))
    && ReadPasses(es').found == ReadPasses(es).found
    && TraceTokens(es') == TraceTokens(es)
  }

  lemma {:induction false} QuietEmit(n: NodeId, es: seq<Event>, e: Event)
    requires InteriorOf(n, e) && !e.LlmCall?
    ensures Quiet(n, es, es + [e])
  {
    ParseSnoc(es, e);
    ReadPassesSnoc(es, e);
    TraceTokensSnoc(es, e);
  }

  lemma {:induction false} AskGateQuiet(S: Session, r: Recorder, run: GateRun)
    ensures var (r', v) := AskGate(S, r, run);
            && Quiet(run.node, r.trace, r'.trace)
            && r'.calls == r.calls && r'.exceededAt == r.exceededAt
            && |r'.trace| == |r.trace| + 1
            && (v.Pass? ==> ReadPasses(r'.trace).last == Some(|r.trace|))
  {
    var a := S.world.judge(r.clock, run);
    var e := GateEvent(run.node, a, run.escalatedTo);
    QuietEmit(run.node, r.trace, e);
    ReadPassesSnoc(r.trace, e);
  }

  lemma {:induction false} PreGatesQuiet(S: Session, b: Boundary, m: Meter, attempt: nat, refs: seq<GateRef>,
                                         r: Recorder)
    ensures var (r', _) := PreGates(S, b, m, attempt, refs, r);
            Quiet(b.node, r.trace, r'.trace) && r'.calls == r.calls && r'.exceededAt == r.exceededAt
    decreases |refs|
  {
    if refs != [] {
      var run := GateRun(refs[0], b.node, if refs[0] == G0_GATE then G0Phase else PrePhase, b.input, None, b.contract,
                         Snapshot(S.budget, m, b.stage.profile.role), attempt, b.grantor, None);
      AskGateQuiet(S, r, run);
      var (r1, v) := AskGate(S, r, run);
      if v.Pass? {
        PreGatesQuiet(S, b, m, attempt, refs[1..], r1);
      }
    }
  }

  /** When every post-gate passes, the last event is the last gate's pass. */
  lemma {:induction false} PostGatesQuiet(S: Session, b: Boundary, m: Meter, attempt: nat, refs: seq<GateRef>,
                                          out: Envelope, r: Recorder)
    ensures var (r', failed) := PostGates(S, b, m, attempt, refs, out, r);
            && Quiet(b.node, r.trace, r'.trace) && r'.calls == r.calls && r'.exceededAt == r.exceededAt
            && (failed.None? && refs != [] ==> |r'.trace| > 0 && ReadPasses(r'.trace).last == Some(|r'.trace| - 1))
            && (failed.Some? ==> !failed.value.1.Pass?)
    decreases |refs|
  {
    if refs != [] {
      AskGateQuiet(S, r, PostRun(S, b, m, attempt, refs[0], out, None));
      var (r1, v) := AskGate(S, r, PostRun(S, b, m, attempt, refs[0], out, None));
      if v.Pass? {
        PostGatesQuiet(S, b, m, attempt, refs[1..], out, r1);
      }
    }
  }

  lemma {:induction false} RouteEdgesQuiet(S: Session, b: Boundary, out: Envelope, confidence: real,
                                           succs: seq<NodeId>, r: Recorder, q: Routing)
    ensures var (r', _, _) := RouteEdges(S, b, out, confidence, succs, r, q);
            && Quiet(b.node, r.trace, r'.trace) && r'.calls == r.calls && r'.exceededAt == r.exceededAt
            && ReadPasses(r'.trace) == ReadPasses(r.trace)
    decreases |succs|
  {
    if succs != [] {
      var c := BuildContract(S, b.node, succs[0], b.stage, out, confidence);
      var e := HandoffRequest(b.node, S.world.contractHash(c));
      QuietEmit(b.node, r.trace, e);
      ReadPassesSnoc(r.trace, e);
      var r1 := Emit(r, e);
      var (router', d) := Route(S.policy, S.task, q.router, c);
      if d.Accept? {
        var e2 := HandoffAccept(b.node, S.world.contractHash(c), d.to);
        QuietEmit(b.node, r1.trace, e2);
        ReadPassesSnoc(r1.trace, e2);
        RouteEdgesQuiet(S, b, out, confidence, succs[1..], Emit(r1, e2),
                        Routing(router', q.routedIn[d.to := c], q.accepted + [(b.node, d.to)]));
      }
    }
  }

  lemma {:induction false} EmitToolsQuiet(r: Recorder, n: NodeId, uses: seq<ToolUse>)
    ensures Quiet(n, r.trace, EmitTools(r, n, uses).trace)
    decreases |uses|
  {
    if uses != [] {
      var e := ToolEvent(n, uses[0]);
      QuietEmit(n, r.trace, e);
      EmitToolsQuiet(Emit(r, e), n, uses[1..]);
    }
  }

  /** A replayed row leaves no event, an executor call only tool events of the node. */
  lemma {:induction false} ObtainQuiet(S: Session, b: Boundary, nextSeq: nat, attempt: nat, r: Recorder)
    ensures var got := Obtain(S, b, nextSeq, attempt, r);
            !got.ForeignRow? ==>
              && Quiet(b.node, r.trace, got.rec.trace) && r.trace <= got.rec.trace
              && got.rec.exceededAt == r.exceededAt
  {
    if CachedRow(S, nextSeq).None? {
      var req := StageRequest(b.node, b.wave, attempt, b.stage.profile.role, b.stage.profile.model, S.task,
                              b.input.payload.json);
      EmitToolsQuiet(r, b.node, S.world.tools(r.clock, req));
    }
  }

  // ---------------------------------------------------------------- turns

  /** Tokens recorded as events and tokens charged to the ledger are the same. */
  ghost predicate Conserved(es: seq<Event>, m: Meter) {
    TraceTokens(es) == TotalOf(m.rows) && CachesAgree(m)
  }

  /** From l to l' the attempts of node n went on: the node stays open, nothing is lost. */
  ghost predicate GoesOn(n: NodeId, l: Loop, l': Loop) {
    && (Parse(l.rec.trace).Inside? && Parse(l.rec.trace).node == n ==> Parse(l'.rec.trace) == Parse(l.rec.trace))
    && ReadPasses(l'.rec.trace).found == ReadPasses(l.rec.trace).found
    && (Conserved(l.rec.trace, l.meter) ==> Conserved(l'.rec.trace, l'.meter))
  }

  /** From l to l' node n was closed without a commit. */
  ghost predicate Closes(n: NodeId, l: Loop, l': Loop) {
    && (Parse(l.rec.trace).Inside? && Parse(l.rec.trace).node == n ==>
          exists kind :: kind != StopDone &&
            Parse(l'.rec.trace) == Between(Parse(l.rec.trace).blocks + [Block(n, Parse(l.rec.trace).wave, kind)]))
    && (Conserved(l.rec.trace, l.meter) ==> Conserved(l'.rec.trace, l'.meter))
  }

  /** What one attempt does to the trace; the node's wave is w. */
  ghost predicate TurnTrace(n: NodeId, w: nat, l: Loop, t: Turn) {
    Parse(l.rec.trace).Inside? && Parse(l.rec.trace).node == n && Parse(l.rec.trace).wave == w ==>
      match t
      case Again(l') => GoesOn(n, l, l')
      case Ready(l', p) =>
        GoesOn(n, l, l') && ReadPasses(l'.rec.trace).last == Some(p.passAt) && p.doneAt == |l'.rec.trace|
      case Stop(l', end) => if end == Panicked then GoesOn(n, l, l') else Closes(n, l, l')
  }

  lemma {:induction false} QuietGoesOn(n: NodeId, l: Loop, l': Loop)
    requires Quiet(n, l.rec.trace, l'.rec.trace) && l'.meter == l.meter
    ensures GoesOn(n, l, l')
  {
  }

  lemma {:induction false} GoesOnThen(n: NodeId, w: nat, l: Loop, l1: Loop, t: Turn)
    requires GoesOn(n, l, l1) && TurnTrace(n, w, l1, t)
    ensures TurnTrace(n, w, l, t)
  {
  }

  lemma {:induction false} StopCloses(b: Boundary, l: Loop, kind: StopKind, end: NodeEnd)
    requires kind != StopDone && end != Panicked
    ensures TurnTrace(b.node, b.wave, l, StopWith(b, l, kind, end))
  {
    var e := StopEvent(b, kind);
    ParseSnoc(l.rec.trace, e);
    TraceTokensSnoc(l.rec.trace, e);
  }

  lemma {:induction false} FailThenStop(b: Boundary, l: Loop, gateId: Id, reason: ReasonCode, score: real,
                                        kind: StopKind, end: NodeEnd)
    requires kind != StopDone && end != Panicked
    ensures TurnTrace(b.node, b.wave, l, StopWith(b, FailRecorded(b, l, gateId, reason, score), kind, end))
  {
    var l1 := FailRecorded(b, l, gateId, reason, score);
    QuietEmit(b.node, l.rec.trace, GateFail(b.node, gateId, reason, score, None, None));
    QuietGoesOn(b.node, l, l1);
    StopCloses(b, l1, kind, end);
    GoesOnThen(b.node, b.wave, l, l1, StopWith(b, l1, kind, end));
  }

  lemma {:induction false} MeterCallConserves(b: SessionBudget, m: Meter, team: Option<Id>, role: AgentRole,
                                              tokensIn: nat, tokensOut: nat)
    requires CachesAgree(m)
    ensures CachesAgree(MeterCall(b, m, team, role, Llm, tokensIn, tokensOut).0)
    ensures TotalOf(MeterCall(b, m, team, role, Llm, tokensIn, tokensOut).0.rows)
            == TotalOf(m.rows) + tokensIn + tokensOut
  {
    ChargeKeepsCaches(m, team, role, Llm, tokensIn, tokensOut);
    TotalAppend(m.rows, MeterRow(MaxSeq(m.rows) + 1, team, role, Llm, tokensIn, tokensOut));
  }

  lemma {:induction false} LlmCallTrace(n: NodeId, es: seq<Event>, e: Event)
    requires e.LlmCall? && e.node == n
    ensures Parse(es).Inside? && Parse(es).node == n ==> Parse(es + [e]) == Parse(es)
    ensures ReadPasses(es + [e]) == ReadPasses(es)
    ensures TraceTokens(es + [e]) == TraceTokens(es) + e.tokensIn + e.tokensOut
  {
    ParseSnoc(es, e);
    ReadPassesSnoc(es, e);
    TraceTokensSnoc(es, e);
  }

  function CallEvent(b: Boundary, o: NodeOutput): Event {
    LlmCall(b.node, Provider(o), b.stage.profile.model, TokensIn(o), TokensOut(o), Latency(o))
  }

  /** The parts of a metered turn: one llm.call, at most one budget event, one metering call. */
  lemma {:induction false} MeterTurnParts(S: Session, b: Boundary, l: Loop, o: NodeOutput)
    returns (warning: Option<Event>)
    ensures var l' := MeterTurn(S, b, l, o);
            && l'.meter == MeterCall(S.budget, l.meter, S.team, b.stage.profile.role, Llm, TokensIn(o), TokensOut(o)).0
            && l'.routing == l.routing && l'.attempts == l.attempts && l'.retried == l.retried
            && l'.rec.calls == l.rec.calls
            && (match warning
                case None => l'.rec.trace == l.rec.trace + [CallEvent(b, o)]
                case Some(e) => e.BudgetEvent? && l'.rec.trace == (l.rec.trace + [CallEvent(b, o)]) + [e])
  {
    var (m, v) := MeterCall(S.budget, l.meter, S.team, b.stage.profile.role, Llm, TokensIn(o), TokensOut(o));
    warning := if v.SpendWarn? then Some(BudgetEvent(WarnLevel, v.spent,
                                                     if v.remaining.Some? then v.remaining.value else 0)) else None;
  }

  lemma {:induction false} MeterTurnTrace(S: Session, b: Boundary, l: Loop, o: NodeOutput)
    ensures GoesOn(b.node, l, MeterTurn(S, b, l, o))
  {
    var warning := MeterTurnParts(S, b, l, o);
    var l' := MeterTurn(S, b, l, o);
    LlmCallTrace(b.node, l.rec.trace, CallEvent(b, o));
    if warning.Some? {
      QuietEmit(b.node, l.rec.trace + [CallEvent(b, o)], warning.value);
    }
    MeterTurnConserves(b.node, S, b, l, l', o);
  }

  lemma {:induction false} MeterTurnConserves(n: NodeId, S: Session, b: Boundary, l: Loop, l': Loop, o: NodeOutput)
    requires l'.meter == MeterCall(S.budget, l.meter, S.team, b.stage.profile.role, Llm, TokensIn(o), TokensOut(o)).0
    requires TraceTokens(l'.rec.trace) == TraceTokens(l.rec.trace) + TokensIn(o) + TokensOut(o)
    ensures Conserved(l.rec.trace, l.meter) ==> Conserved(l'.rec.trace, l'.meter)
  {
    if CachesAgree(l.meter) {
      MeterCallConserves(S.budget, l.meter, S.team, b.stage.profile.role, TokensIn(o), TokensOut(o));
    }
  }

  lemma {:induction false} RouteTurnTrace(S: Session, b: Boundary, l: Loop, o: NodeOutput, out: Envelope,
                                          confidence: real)
    requires |l.rec.trace| > 0 && ReadPasses(l.rec.trace).last == Some(|l.rec.trace| - 1)
    ensures TurnTrace(b.node, b.wave, l, RouteTurn(S, b, l, o, out, confidence))
  {
    RouteEdgesQuiet(S, b, out, confidence, Sorted(Succs(S.g, b.node)), l.rec, l.routing);
    var (r, q, end) := RouteEdges(S, b, out, confidence, Sorted(Succs(S.g, b.node)), l.rec, l.routing);
    var l1 := l.(rec := r, routing := q);
    QuietGoesOn(b.node, l, l1);
    match end
    case AllAccepted =>
    case RetryLater =>
    case Returned =>
      FailThenStop(b, l1, ROUTER_GATE, GATE_REJECT, confidence, StopReject, NodeFailed(GATE_REJECT));
    case HaltedBy(reason) =>
      FailThenStop(b, l1, ROUTER_GATE, reason, 0.0, StopEscalate, NodeHalted(reason));
  }

  lemma {:induction false} PostRefsSome(stage: StageSpec)
    ensures PostRefs(stage) != []
  {
    SortedSpec({Id("schema"), Id("done_criteria"), Id("rubric")} + stage.postGates);
    assert Id("schema") in PostRefs(stage);
  }

  lemma {:induction false} PassedGatesTrace(S: Session, b: Boundary, l: Loop, l1: Loop, o: NodeOutput, out: Envelope)
    requires GoesOn(b.node, l, l1)
    requires |l1.rec.trace| > 0 && ReadPasses(l1.rec.trace).last == Some(|l1.rec.trace| - 1)
    ensures TurnTrace(b.node, b.wave, l, RouteTurn(S, b, l1, o, out, Clamp(ConfidenceOf(o))))
  {
    RouteTurnTrace(S, b, l1, o, out, Clamp(ConfidenceOf(o)));
    GoesOnThen(b.node, b.wave, l, l1, RouteTurn(S, b, l1, o, out, Clamp(ConfidenceOf(o))));
  }

  lemma {:induction false} JudgeTurnTrace(S: Session, b: Boundary, l: Loop, attempt: nat, o: NodeOutput)
    ensures TurnTrace(b.node, b.wave, l, JudgeTurn(S, b, l, attempt, o))
  {
    var out := OutputEnvelope(S, b, o);
    PostGatesQuiet(S, b, l.meter, attempt, PostRefs(b.stage), out, l.rec);
    PostRefsSome(b.stage);
    var (r, failed) := PostGates(S, b, l.meter, attempt, PostRefs(b.stage), out, l.rec);
    var l1 := l.(rec := r);
    QuietGoesOn(b.node, l, l1);
    match failed
    case None =>
      PassedGatesTrace(S, b, l, l1, o, out);
    case Some((gateRef, v)) =>
      FailedGateTrace(S, b, l, l1, attempt, gateRef, v, out);
  }

  lemma {:induction false} GoesOnThenStops(b: Boundary, l: Loop, l1: Loop, kind: StopKind, end: NodeEnd)
    requires GoesOn(b.node, l, l1) && kind != StopDone && end != Panicked
    ensures TurnTrace(b.node, b.wave, l, StopWith(b, l1, kind, end))
  {
    StopCloses(b, l1, kind, end);
    GoesOnThen(b.node, b.wave, l, l1, StopWith(b, l1, kind, end));
  }

  /** An exhausted retry asks the gate once more, with the escalation. */
  lemma {:induction false} EscalationGoesOn(S: Session, b: Boundary, l: Loop, l1: Loop, attempt: nat, gateRef: GateRef,
                                            out: Envelope)
    requires GoesOn(b.node, l, l1) && l1.meter == l.meter && l1 == l.(rec := l1.rec)
    ensures var (r2, _) := AskGate(S, l1.rec, PostRun(S, b, l.meter, attempt, gateRef, out, Some(Parent(b))));
            GoesOn(b.node, l, l.(rec := r2))
  {
    var run := PostRun(S, b, l.meter, attempt, gateRef, out, Some(Parent(b)));
    AskGateQuiet(S, l1.rec, run);
    QuietGoesOn(b.node, l1, l.(rec := AskGate(S, l1.rec, run).0));
  }

  lemma {:induction false} FailedGateTrace(S: Session, b: Boundary, l: Loop, l1: Loop, attempt: nat, gateRef: GateRef,
                                           v: GateVerdict, out: Envelope)
    requires GoesOn(b.node, l, l1) && l1.meter == l.meter && l1 == l.(rec := l1.rec)
    ensures var (r2, _) := AskGate(S, l1.rec, PostRun(S, b, l.meter, attempt, gateRef, out, Some(Parent(b))));
            TurnTrace(b.node, b.wave, l,
              if v.Retry? then
                RetryOr(S, b, l1, attempt, StopWith(b, l.(rec := r2), StopReject, NodeFailed(GATE_REJECT)))
              else if v.RejectVerdict? && v.reason == BUDGET_EXCEEDED then
                StopWith(b, l1, StopEscalate, NodeSuspended(Some(BUDGET_EXCEEDED)))
              else
                StopWith(b, l1, StopReject, NodeFailed(GATE_REJECT)))
  {
    GoesOnThenStops(b, l, l1, StopEscalate, NodeSuspended(Some(BUDGET_EXCEEDED)));
    GoesOnThenStops(b, l, l1, StopReject, NodeFailed(GATE_REJECT));
    EscalationGoesOn(S, b, l, l1, attempt, gateRef, out);
    var (r2, _) := AskGate(S, l1.rec, PostRun(S, b, l.meter, attempt, gateRef, out, Some(Parent(b))));
    GoesOnThenStops(b, l, l.(rec := r2), StopReject, NodeFailed(GATE_REJECT));
  }

  lemma {:induction false} BrokenTurnTrace(S: Session, b: Boundary, l: Loop, l1: Loop, attempt: nat, reason: ReasonCode)
    requires Quiet(b.node, l.rec.trace, l1.rec.trace) && l1.meter == l.meter
    ensures TurnTrace(b.node, b.wave, l,
              RetryOr(S, b, l1, attempt, StopWith(b, l1, StopEscalate, NodeHalted(reason))))
  {
    QuietGoesOn(b.node, l, l1);
    StopCloses(b, l1, StopEscalate, NodeHalted(reason));
    GoesOnThen(b.node, b.wave, l, l1, StopWith(b, l1, StopEscalate, NodeHalted(reason)));
  }

  lemma {:induction false} TakeTurnTrace(S: Session, b: Boundary, nextSeq: nat, l: Loop)
    ensures TurnTrace(b.node, b.wave, l, TakeTurn(S, b, nextSeq, l))
  {
    var (r, stop) := Poll(S, l.rec);
    var l0 := l.(rec := r);
    QuietGoesOn(b.node, l, l0);
    if stop {
      StopCloses(b, l0, StopEscalate, NodeSuspended(None));
      GoesOnThen(b.node, b.wave, l, l0, StopWith(b, l0, StopEscalate, NodeSuspended(None)));
    } else {
      var attempt := AttemptOf(l.attempts, b.node);
      ObtainQuiet(S, b, nextSeq, attempt, r);
      match Obtain(S, b, nextSeq, attempt, r)
      case ForeignRow =>
      case Broken(r1, reason) =>
        var l1 := l.(rec := r1);
        BrokenTurnTrace(S, b, l, l1, attempt, reason);
      case Got(r1, o) =>
        GotOutputTrace(S, b, l, attempt, r1, o);
    }
  }

  lemma {:induction false} ViolatedTurnTrace(b: Boundary, l: Loop, l1: Loop)
    requires GoesOn(b.node, l, l1)
    ensures TurnTrace(b.node, b.wave, l,
              StopWith(b, l1.(rec := Emit(l1.rec, GateFail(b.node, CACHE_GATE, GATE_REJECT, 0.0, None, None))),
                       StopReject, NodeFailed(GATE_REJECT)))
  {
    var e := GateFail(b.node, CACHE_GATE, GATE_REJECT, 0.0, None, None);
    var l2 := l1.(rec := Emit(l1.rec, e));
    QuietEmit(b.node, l1.rec.trace, e);
    QuietGoesOn(b.node, l1, l2);
    GoesOnThenStops(b, l1, l2, StopReject, NodeFailed(GATE_REJECT));
    GoesOnThen(b.node, b.wave, l, l1, StopWith(b, l2, StopReject, NodeFailed(GATE_REJECT)));
  }

  lemma {:induction false} MeteredTurnTrace(S: Session, b: Boundary, l: Loop, l1: Loop, attempt: nat, o: NodeOutput)
    requires GoesOn(b.node, l, l1)
    ensures TurnTrace(b.node, b.wave, l, JudgeTurn(S, b, MeterTurn(S, b, l1, o), attempt, o))
  {
    var l2 := MeterTurn(S, b, l1, o);
    MeterTurnTrace(S, b, l1, o);
    JudgeTurnTrace(S, b, l2, attempt, o);
    GoesOnThen(b.node, b.wave, l1, l2, JudgeTurn(S, b, l2, attempt, o));
    GoesOnThen(b.node, b.wave, l, l1, JudgeTurn(S, b, l2, attempt, o));
  }

  lemma {:induction false} GotOutputTrace(S: Session, b: Boundary, l: Loop, attempt: nat, r1: Recorder, o: NodeOutput)
    requires Quiet(b.node, l.rec.trace, r1.trace)
    ensures var l1 := l.(rec := RecordScore(Tick(r1), 0.0));
            TurnTrace(b.node, b.wave, l,
              StopWith(b, l1.(rec := Emit(l1.rec, GateFail(b.node, CACHE_GATE, GATE_REJECT, 0.0, None, None))),
                       StopReject, NodeFailed(GATE_REJECT)))
    ensures TurnTrace(b.node, b.wave, l,
              JudgeTurn(S, b, MeterTurn(S, b, l.(rec := if o.Live? then Tick(r1) else r1), o), attempt, o))
  {
    var l1, l2 := l.(rec := RecordScore(Tick(r1), 0.0)), l.(rec := if o.Live? then Tick(r1) else r1);
    QuietGoesOn(b.node, l, l1);
    ViolatedTurnTrace(b, l, l1);
    QuietGoesOn(b.node, l, l2);
    MeteredTurnTrace(S, b, l, l2, attempt, o);
  }

  lemma {:induction false} AttemptsTrace(S: Session, b: Boundary, nextSeq: nat, l: Loop)
    ensures TurnTrace(b.node, b.wave, l, Attempts(S, b, nextSeq, l))
    decreases RetriesLeft(S, b.node, l)
  {
    var t := TakeTurn(S, b, nextSeq, l);
    TakeTurnTrace(S, b, nextSeq, l);
    TurnsRunOut(S, b, nextSeq, l);
    if t.Again? {
      AttemptsTrace(S, b, nextSeq, t.l);
      if Parse(l.rec.trace).Inside? && Parse(l.rec.trace).node == b.node && Parse(l.rec.trace).wave == b.wave {
        GoesOnThen(b.node, b.wave, l, t.l, Attempts(S, b, nextSeq, t.l));
      }
    }
  }
}
