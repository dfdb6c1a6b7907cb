/**
 * A run as a list of small actions: each question, event, metering call, handoff and commit
 * is one action with a condition of its own, and every run of the model is such a list. What
 * every action keeps is therefore true of every run.
 */
module RunActions {
  import opened Core
  import opened Orders
  import opened Domain
  import opened Waves
  import opened Router
  import opened Budget
  import opened RunModel
  import opened RunGates

  datatype Action =
    | Wait
    | Judge(run: GateRun)
    | Announce(e: Event)
    | Refuse(node: NodeId, reason: ReasonCode, score: real)
    | Work(nextSeq: nat, request: StageRequest)
    | Replay(nextSeq: nat, node: NodeId, row: CachedExecution)
    | Recheck(role: AgentRole)
    | Hand(from: NodeId, to: NodeId, c: HandoffContract, router: RouterState)
    | Settle(router: RouterState, attempts: map<NodeId, nat>)
    | Keep(durable: Durable, concerns: nat)

  /** The llm.call event, metering, and on a first warning its budget event. */
  function SpendOn(S: Session, s: RunState, stage: StageSpec, n: NodeId, o: NodeOutput): RunState {
    var r1 := Emit(s.rec, LlmCall(n, Provider(o), stage.profile.model, TokensIn(o), TokensOut(o), Latency(o)));
    var (m, v) := MeterCall(S.budget, s.meter, S.team, stage.profile.role, Llm, TokensIn(o), TokensOut(o));
    var r2 := NoteVerdict(r1, v);
    s.(meter := m,
       rec := if v.SpendWarn? then Emit(r2, BudgetEvent(WarnLevel, v.spent,
                                                        if v.remaining.Some? then v.remaining.value else 0)) else r2)
  }

  /** A fail that the runner itself records. */
  function RefuseOn(s: RunState, n: NodeId, gateId: Id, reason: ReasonCode, score: real): RunState {
    s.(rec := RecordScore(Emit(s.rec, GateFail(n, gateId, reason, score, None, None)), score))
  }

  /**
   * A call of the executor: its tool events, and for a report the sentinel's objection or the
   * llm.call and its metering.
   */
  function WorkOn(S: Session, s: RunState, stage: StageSpec, nextSeq: nat, request: StageRequest): RunState {
    var (r, result) := AskExecutor(S, s.rec, nextSeq, request);
    match result
    case StageFailure(_) => s.(rec := r)
    case Finished(report) =>
      if S.world.violates(r.clock, report.promptHash)
      then RefuseOn(s.(rec := Tick(r)), request.node, CACHE_GATE, GATE_REJECT, 0.0)
      else SpendOn(S, s.(rec := Tick(r)), stage, request.node, Live(report))
  }

  function Act(S: Session, s: RunState, a: Action): RunState {
    match a
    case Wait => s.(rec := Tick(s.rec))
    case Judge(run) => s.(rec := AskGate(S, s.rec, run).0)
    case Announce(e) => s.(rec := Emit(s.rec, e))
    case Refuse(n, reason, score) => RefuseOn(s, n, ROUTER_GATE, reason, score)
    case Work(nextSeq, request) =>
      if request.node in S.stages then WorkOn(S, s, S.stages[request.node], nextSeq, request) else s
    case Replay(_, n, row) => if n in S.stages then SpendOn(S, s, S.stages[n], n, Cached(row)) else s
    case Recheck(role) =>
      var (m, v) := MeterCall(S.budget, s.meter, S.team, role, Llm, 0, 0);
      s.(meter := m, rec := NoteVerdict(s.rec, v))
    case Hand(from, to, c, router) =>
      s.(rec := Emit(s.rec, HandoffAccept(from, S.world.contractHash(c), to)),
         routing := Routing(router, s.routing.routedIn[to := c], s.routing.accepted + [(from, to)]))
    case Settle(router, attempts) => s.(routing := s.routing.(router := router), attempts := attempts)
    case Keep(durable, concerns) => s.(durable := durable, concerns := concerns)
  }

  /** The plain events: each with the attributes that the plan or the ledger prescribe. */
  ghost predicate PlainEvent(S: Session, m: Meter, e: Event) {
    match e
    case NodeStart(n, role, _) => n in S.stages && role == S.stages[n].profile.role
    case NodeStop(n, role, _, _) => n in S.stages && role == S.stages[n].profile.role
    case HandoffRequest(n, _) => n in S.stages
    case BudgetEvent(level, spent, remaining) => level == SuspendLevel && spent == SessionSpentOf(m) && remaining == 0
    case SessionClose(id, _) => id == S.sessionId
    case _ => false
  }

  /** The condition of an action. */
  ghost predicate May(S: Session, s: RunState, a: Action) {
    match a
    case Judge(run) =>
      && run.node in S.stages && run.attempt == AttemptOf(s.attempts, run.node)
      && run.budgetState == Snapshot(S.budget, s.meter, S.stages[run.node].profile.role)
    case Announce(e) => PlainEvent(S, s.meter, e)
    case Refuse(n, _, _) => n in S.stages
    case Work(_, request) =>
      && s.rec.clock > 0 && !S.world.interrupted(s.rec.clock - 1)
      && request.node in S.stages && request.attempt == AttemptOf(s.attempts, request.node)
      && request.role == S.stages[request.node].profile.role && request.model == S.stages[request.node].profile.model
      && request.task == S.task
    case Replay(nextSeq, n, row) => n in S.stages && CachedRow(S, nextSeq) == Some(row) && row.envelope.from == n
    case Recheck(role) => exists n :: n in S.stages && S.stages[n].profile.role == role
    case Hand(from, to, c, _) =>
      && s.rec.trace != []
      && s.rec.trace[|s.rec.trace| - 1] == HandoffRequest(from, S.world.contractHash(c))
      && c.fromNode == from && c.toNode == Some(to)
    case _ => true
  }

  /** From x these actions, each allowed in turn, lead to y. */
  ghost predicate Path(S: Session, x: RunState, actions: seq<Action>, y: RunState)
    decreases |actions|
  {
    if actions == [] then x == y
    else May(S, x, actions[0]) && Path(S, Act(S, x, actions[0]), actions[1..], y)
  }

  ghost predicate Leads(S: Session, x: RunState, y: RunState) {
    exists actions :: Path(S, x, actions, y)
  }

  lemma {:induction false} Stays(S: Session, x: RunState)
    ensures Leads(S, x, x)
  {
    assert Path(S, x, [], x);
  }

  lemma {:induction false} PathOne(S: Session, x: RunState, a: Action)
    requires May(S, x, a)
    ensures Leads(S, x, Act(S, x, a))
  {
    var actions := [a];
    assert actions[1..] == [];
    assert Path(S, Act(S, x, a), actions[1..], Act(S, x, a));
    assert Path(S, x, actions, Act(S, x, a));
  }

  lemma {:induction false} PathThen(S: Session, x: RunState, a: seq<Action>, y: RunState, b: seq<Action>, z: RunState)
    requires Path(S, x, a, y) && Path(S, y, b, z)
    ensures Path(S, x, a + b, z)
    decreases |a|
  {
    if a == [] {
      assert a + b == b;
    } else {
      PathThen(S, Act(S, x, a[0]), a[1..], y, b, z);
      assert (a + b)[1..] == a[1..] + b;
    }
  }

  lemma {:induction false} Then(S: Session, x: RunState, y: RunState, z: RunState)
    requires Leads(S, x, y) && Leads(S, y, z)
    ensures Leads(S, x, z)
  {
    var a :| Path(S, x, a, y);
    var b :| Path(S, y, b, z);
    PathThen(S, x, a, y, b, z);
  }

  /** One more action. */
  lemma {:induction false} Next(S: Session, x: RunState, y: RunState, a: Action)
    requires Leads(S, x, y) && May(S, y, a)
    ensures Leads(S, x, Act(S, y, a))
  {
    PathOne(S, y, a);
    Then(S, x, y, Act(S, y, a));
  }

  // ---------------------------------------------------------------- gates and routing

  ghost predicate Planned(S: Session, b: Boundary) {
    b.node in S.stages && b.stage == S.stages[b.node]
  }

  lemma {:induction false} PreGatesActs(S: Session, b: Boundary, x: RunState, refs: seq<GateRef>)
    requires Planned(S, b)
    ensures Leads(S, x, x.(rec := PreGates(S, b, x.meter, AttemptOf(x.attempts, b.node), refs, x.rec).0))
    decreases |refs|
  {
    Stays(S, x);
    if refs != [] {
      var attempt := AttemptOf(x.attempts, b.node);
      var a := Judge(PreRun(S, b, x.meter, attempt, refs[0]));
      Next(S, x, x, a);
      var y := Act(S, x, a);
      PreGatesActs(S, b, y, refs[1..]);
      Then(S, x, y, y.(rec := PreGates(S, b, y.meter, attempt, refs[1..], y.rec).0));
    }
  }

  lemma {:induction false} PostGatesActs(S: Session, b: Boundary, x: RunState, refs: seq<GateRef>, out: Envelope)
    requires Planned(S, b)
    ensures Leads(S, x, x.(rec := PostGates(S, b, x.meter, AttemptOf(x.attempts, b.node), refs, out, x.rec).0))
    decreases |refs|
  {
    Stays(S, x);
    if refs != [] {
      var attempt := AttemptOf(x.attempts, b.node);
      var a := Judge(PostRun(S, b, x.meter, attempt, refs[0], out, None));
      Next(S, x, x, a);
      var y := Act(S, x, a);
      PostGatesActs(S, b, y, refs[1..], out);
      Then(S, x, y, y.(rec := PostGates(S, b, y.meter, attempt, refs[1..], out, y.rec).0));
    }
  }

  /** The request of a handoff. */
  lemma {:induction false} RequestActs(S: Session, b: Boundary, x: RunState, c: HandoffContract) returns (y: RunState)
    requires Planned(S, b)
    ensures y == x.(rec := Emit(x.rec, HandoffRequest(b.node, S.world.contractHash(c)))) && Leads(S, x, y)
    ensures y.rec.trace != []
    ensures y.rec.trace[|y.rec.trace| - 1] == HandoffRequest(b.node, S.world.contractHash(c))
  {
    var a := Announce(HandoffRequest(b.node, S.world.contractHash(c)));
    PathOne(S, x, a);
    y := Act(S, x, a);
  }

  lemma {:induction false} RouteEdgesActs(S: Session, b: Boundary, x: RunState, out: Envelope, confidence: real,
                                          succs: seq<NodeId>)
    requires Planned(S, b)
    ensures var (r, q, _) := RouteEdges(S, b, out, confidence, succs, x.rec, x.routing);
            Leads(S, x, x.(rec := r, routing := q))
    decreases |succs|
  {
    Stays(S, x);
    if succs != [] {
      var c := BuildContract(S, b.node, succs[0], b.stage, out, confidence);
      var y := RequestActs(S, b, x, c);
      var (router', d) := Route(S.policy, S.task, x.routing.router, c);
      if d.Accept? {
        var a := Hand(b.node, d.to, c, router');
        Next(S, x, y, a);
        var z := Act(S, y, a);
        RouteEdgesActs(S, b, z, out, confidence, succs[1..]);
        var (r, q, _) := RouteEdges(S, b, out, confidence, succs[1..], z.rec, z.routing);
        Then(S, x, z, z.(rec := r, routing := q));
      } else {
        Next(S, x, y, Settle(router', y.attempts));
      }
    }
  }

  // ---------------------------------------------------------------- attempts

  /** The run state in the midst of a node's attempts. */
  function At(x: RunState, l: Loop): RunState {
    RunState(l.rec, l.meter, l.routing, l.attempts, x.durable, x.concerns)
  }

  lemma {:induction false} StopActs(S: Session, b: Boundary, x: RunState, y: RunState, kind: StopKind)
    requires Planned(S, b) && Leads(S, x, y)
    ensures Leads(S, x, y.(rec := Emit(y.rec, StopEvent(b, kind))))
  {
    Next(S, x, y, Announce(StopEvent(b, kind)));
  }

  lemma {:induction false} StopWithActs(S: Session, b: Boundary, x: RunState, y: RunState, l: Loop, kind: StopKind,
                                        end: NodeEnd)
    requires Planned(S, b) && Leads(S, x, At(y, l))
    ensures Leads(S, x, At(y, StopWith(b, l, kind, end).l))
  {
    StopActs(S, b, x, At(y, l), kind);
  }

  lemma {:induction false} BumpActs(S: Session, x: RunState, y: RunState, l: Loop, n: NodeId)
    requires Leads(S, x, At(y, l))
    ensures Leads(S, x, At(y, Bump(l, n)))
  {
    Next(S, x, At(y, l), Settle(l.routing.router, Bump(l, n).attempts));
  }

  lemma {:induction false} FailActs(S: Session, b: Boundary, x: RunState, y: RunState, l: Loop, reason: ReasonCode,
                                    score: real, kind: StopKind, end: NodeEnd)
    requires Planned(S, b) && Leads(S, x, At(y, l))
    ensures Leads(S, x, At(y, StopWith(b, FailRecorded(b, l, ROUTER_GATE, reason, score), kind, end).l))
  {
    Next(S, x, At(y, l), Refuse(b.node, reason, score));
    StopWithActs(S, b, x, y, FailRecorded(b, l, ROUTER_GATE, reason, score), kind, end);
  }

  lemma {:induction false} RouteTurnActs(S: Session, b: Boundary, x: RunState, l: Loop, o: NodeOutput, out: Envelope,
                                         confidence: real)
    requires Planned(S, b)
    ensures Leads(S, At(x, l), At(x, RouteTurn(S, b, l, o, out, confidence).l))
  {
    var succs := Sorted(Succs(S.g, b.node));
    RouteEdgesActs(S, b, At(x, l), out, confidence, succs);
    var (r, q, end) := RouteEdges(S, b, out, confidence, succs, l.rec, l.routing);
    var l1 := l.(rec := r, routing := q);
    match end
    case AllAccepted =>
    case RetryLater => BumpActs(S, At(x, l), x, l1, b.node);
    case Returned =>
      FailActs(S, b, At(x, l), x, l1, GATE_REJECT, confidence, StopReject, NodeFailed(GATE_REJECT));
    case HaltedBy(reason) =>
      FailActs(S, b, At(x, l), x, l1, reason, 0.0, StopEscalate, NodeHalted(reason));
  }

  lemma {:induction false} RetryOrActs(S: Session, b: Boundary, x: RunState, y: RunState, l: Loop, attempt: nat,
                                       otherwise: Turn)
    requires Leads(S, x, At(y, l)) && Leads(S, x, At(y, otherwise.l))
    ensures Leads(S, x, At(y, RetryOr(S, b, l, attempt, otherwise).l))
  {
    BumpActs(S, x, y, l, b.node);
  }

  lemma {:induction false} FailedTurnActs(S: Session, b: Boundary, x: RunState, y: RunState, l: Loop, ref: GateRef,
                                          v: GateVerdict, out: Envelope, r: Recorder)
    requires Planned(S, b) && Leads(S, x, At(y, l.(rec := r)))
    ensures Leads(S, x, At(y, FailedTurn(S, b, l, AttemptOf(l.attempts, b.node), ref, v, out, r).l))
  {
    var attempt, l1 := AttemptOf(l.attempts, b.node), l.(rec := r);
    StopWithActs(S, b, x, y, l1, StopEscalate, NodeSuspended(Some(BUDGET_EXCEEDED)));
    StopWithActs(S, b, x, y, l1, StopReject, NodeFailed(GATE_REJECT));
    if v.Retry? {
      var run := PostRun(S, b, l.meter, attempt, ref, out, Some(Parent(b)));
      Next(S, x, At(y, l1), Judge(run));
      var l2 := l.(rec := AskGate(S, r, run).0);
      StopWithActs(S, b, x, y, l2, StopReject, NodeFailed(GATE_REJECT));
      RetryOrActs(S, b, x, y, l1, attempt, StopWith(b, l2, StopReject, NodeFailed(GATE_REJECT)));
    }
  }

  lemma {:induction false} JudgeTurnActs(S: Session, b: Boundary, x: RunState, l: Loop, o: NodeOutput)
    requires Planned(S, b)
    ensures Leads(S, At(x, l), At(x, JudgeTurn(S, b, l, AttemptOf(l.attempts, b.node), o).l))
  {
    var out, attempt := OutputEnvelope(S, b, o), AttemptOf(l.attempts, b.node);
    PostGatesActs(S, b, At(x, l), PostRefs(b.stage), out);
    var (r, failed) := PostGates(S, b, l.meter, attempt, PostRefs(b.stage), out, l.rec);
    var l1 := l.(rec := r);
    match failed
    case None =>
      RouteTurnActs(S, b, x, l1, o, out, Clamp(ConfidenceOf(o)));
      Then(S, At(x, l), At(x, l1), At(x, RouteTurn(S, b, l1, o, out, Clamp(ConfidenceOf(o))).l));
    case Some((ref, v)) =>
      FailedTurnActs(S, b, At(x, l), x, l, ref, v, out, r);
  }

  lemma {:induction false} MeteredTurnActs(S: Session, b: Boundary, x: RunState, y: RunState, l: Loop, o: NodeOutput)
    requires Planned(S, b) && Leads(S, x, At(y, MeterTurn(S, b, l, o)))
    ensures Leads(S, x, At(y, JudgeTurn(S, b, MeterTurn(S, b, l, o), AttemptOf(l.attempts, b.node), o).l))
  {
    var l1 := MeterTurn(S, b, l, o);
    JudgeTurnActs(S, b, y, l1, o);
    Then(S, x, At(y, l1), At(y, JudgeTurn(S, b, l1, AttemptOf(l.attempts, b.node), o).l));
  }

  lemma {:induction false} WaitActs(S: Session, x: RunState, y: RunState, l: Loop)
    requires Leads(S, x, At(y, l))
    ensures Leads(S, x, At(y, l.(rec := Tick(l.rec))))
  {
    Next(S, x, At(y, l), Wait);
  }

  function RequestFor(S: Session, b: Boundary, attempt: nat): StageRequest {
    StageRequest(b.node, b.wave, attempt, b.stage.profile.role, b.stage.profile.model, S.task, b.input.payload.json)
  }

  lemma {:induction false} ReplayActs(S: Session, b: Boundary, nextSeq: nat, x: RunState, y: RunState, l: Loop,
                                      row: CachedExecution)
    requires Planned(S, b) && CachedRow(S, nextSeq) == Some(row) && row.envelope.from == b.node
    requires Leads(S, x, At(y, l))
    ensures Leads(S, x, At(y, MeterTurn(S, b, l, Cached(row))))
  {
    Next(S, x, At(y, l), Replay(nextSeq, b.node, row));
  }

  /** The refusal of the cache sentinel. */
  function Violated(b: Boundary, l: Loop, r: Recorder): Loop {
    var l1 := l.(rec := RecordScore(Tick(r), 0.0));
    l1.(rec := Emit(l1.rec, GateFail(b.node, CACHE_GATE, GATE_REJECT, 0.0, None, None)))
  }

  lemma {:induction false} WorkActs(S: Session, b: Boundary, nextSeq: nat, x: RunState, y: RunState, l: Loop)
    requires Planned(S, b) && Leads(S, x, At(y, l)) && l.rec.clock > 0 && !S.world.interrupted(l.rec.clock - 1)
    ensures var (r, result) := AskExecutor(S, l.rec, nextSeq, RequestFor(S, b, AttemptOf(l.attempts, b.node)));
            match result
            case StageFailure(_) => Leads(S, x, At(y, l.(rec := r)))
            case Finished(report) =>
              if S.world.violates(r.clock, report.promptHash) then Leads(S, x, At(y, Violated(b, l, r)))
              else Leads(S, x, At(y, MeterTurn(S, b, l.(rec := Tick(r)), Live(report))))
  {
    Next(S, x, At(y, l), Work(nextSeq, RequestFor(S, b, AttemptOf(l.attempts, b.node))));
  }

  lemma {:induction false} CachedTurnActs(S: Session, b: Boundary, nextSeq: nat, x: RunState, y: RunState, l: Loop,
                                          row: CachedExecution)
    requires Planned(S, b) && Leads(S, x, At(y, l)) && CachedRow(S, nextSeq) == Some(row)
    requires row.envelope.from == b.node
    ensures Leads(S, x, At(y, JudgeTurn(S, b, MeterTurn(S, b, l, Cached(row)), AttemptOf(l.attempts, b.node),
                                        Cached(row)).l))
  {
    ReplayActs(S, b, nextSeq, x, y, l, row);
    MeteredTurnActs(S, b, x, y, l, Cached(row));
  }

  lemma {:induction false} LiveTurnActs(S: Session, b: Boundary, nextSeq: nat, x: RunState, y: RunState, l: Loop)
    requires Planned(S, b) && Leads(S, x, At(y, l)) && l.rec.clock > 0 && !S.world.interrupted(l.rec.clock - 1)
    ensures var attempt := AttemptOf(l.attempts, b.node);
            var (r, result) := AskExecutor(S, l.rec, nextSeq, RequestFor(S, b, attempt));
            match result
            case StageFailure(reason) =>
              Leads(S, x, At(y, RetryOr(S, b, l.(rec := r), attempt,
                                        StopWith(b, l.(rec := r), StopEscalate, NodeHalted(reason))).l))
            case Finished(report) =>
              if S.world.violates(r.clock, report.promptHash)
              then Leads(S, x, At(y, StopWith(b, Violated(b, l, r), StopReject, NodeFailed(GATE_REJECT)).l))
              else Leads(S, x, At(y, JudgeTurn(S, b, MeterTurn(S, b, l.(rec := Tick(r)), Live(report)), attempt,
                                               Live(report)).l))
  {
    WorkActs(S, b, nextSeq, x, y, l);
    var attempt := AttemptOf(l.attempts, b.node);
    var (r, result) := AskExecutor(S, l.rec, nextSeq, RequestFor(S, b, attempt));
    match result
    case StageFailure(reason) =>
      StopWithActs(S, b, x, y, l.(rec := r), StopEscalate, NodeHalted(reason));
      RetryOrActs(S, b, x, y, l.(rec := r), attempt,
                  StopWith(b, l.(rec := r), StopEscalate, NodeHalted(reason)));
    case Finished(report) =>
      if S.world.violates(r.clock, report.promptHash) {
        StopWithActs(S, b, x, y, Violated(b, l, r), StopReject, NodeFailed(GATE_REJECT));
      } else {
        MeteredTurnActs(S, b, x, y, l.(rec := Tick(r)), Live(report));
      }
  }

  /** One attempt, by where its output comes from: the flag is up, the row is replayed, or the executor is called. */
  lemma {:induction false} InterruptedTurn(S: Session, b: Boundary, nextSeq: nat, l: Loop)
    requires S.world.interrupted(l.rec.clock)
    ensures TakeTurn(S, b, nextSeq, l)
            == StopWith(b, l.(rec := Tick(l.rec)), StopEscalate, NodeSuspended(None))
  {
  }

  lemma {:induction false} CachedTurn(S: Session, b: Boundary, nextSeq: nat, l: Loop, row: CachedExecution)
    requires !S.world.interrupted(l.rec.clock) && CachedRow(S, nextSeq) == Some(row)
    ensures var l0 := l.(rec := Tick(l.rec));
            TakeTurn(S, b, nextSeq, l)
            == if row.envelope.from != b.node then Stop(l0, Panicked)
               else JudgeTurn(S, b, MeterTurn(S, b, l0, Cached(row)), AttemptOf(l.attempts, b.node), Cached(row))
  {
    assert Obtain(S, b, nextSeq, AttemptOf(l.attempts, b.node), Tick(l.rec))
        == if row.envelope.from == b.node then Got(Tick(l.rec), Cached(row)) else ForeignRow;
  }

  lemma {:induction false} LiveTurn(S: Session, b: Boundary, nextSeq: nat, l: Loop)
    requires !S.world.interrupted(l.rec.clock) && CachedRow(S, nextSeq).None?
    ensures var l0, attempt := l.(rec := Tick(l.rec)), AttemptOf(l.attempts, b.node);
            var (r, result) := AskExecutor(S, l0.rec, nextSeq, RequestFor(S, b, attempt));
            TakeTurn(S, b, nextSeq, l)
            == match result
               case StageFailure(reason) =>
                 RetryOr(S, b, l0.(rec := r), attempt, StopWith(b, l0.(rec := r), StopEscalate, NodeHalted(reason)))
               case Finished(report) =>
                 if S.world.violates(r.clock, report.promptHash)
                 then StopWith(b, Violated(b, l0, r), StopReject, NodeFailed(GATE_REJECT))
                 else JudgeTurn(S, b, MeterTurn(S, b, l0.(rec := Tick(r)), Live(report)), attempt, Live(report))
  {
    var attempt := AttemptOf(l.attempts, b.node);
    var (r, result) := AskExecutor(S, Tick(l.rec), nextSeq, RequestFor(S, b, attempt));
    assert Obtain(S, b, nextSeq, attempt, Tick(l.rec))
        == match result case StageFailure(reason) => Broken(r, reason) case Finished(report) => Got(r, Live(report));
  }

  lemma {:induction false} PollActed(S: Session, x: RunState, l: Loop)
    ensures Leads(S, At(x, l), At(x, l.(rec := Tick(l.rec))))
  {
    Stays(S, At(x, l));
    WaitActs(S, At(x, l), x, l);
  }

  lemma {:induction false} InterruptedActs(S: Session, b: Boundary, nextSeq: nat, x: RunState, l: Loop)
    requires Planned(S, b) && S.world.interrupted(l.rec.clock)
    ensures Leads(S, At(x, l), At(x, TakeTurn(S, b, nextSeq, l).l))
  {
    PollActed(S, x, l);
    InterruptedTurn(S, b, nextSeq, l);
    StopWithActs(S, b, At(x, l), x, l.(rec := Tick(l.rec)), StopEscalate, NodeSuspended(None));
  }

  lemma {:induction false} ReplayedActs(S: Session, b: Boundary, nextSeq: nat, x: RunState, l: Loop,
                                        row: CachedExecution)
    requires Planned(S, b) && !S.world.interrupted(l.rec.clock) && CachedRow(S, nextSeq) == Some(row)
    ensures Leads(S, At(x, l), At(x, TakeTurn(S, b, nextSeq, l).l))
  {
    PollActed(S, x, l);
    CachedTurn(S, b, nextSeq, l, row);
    if row.envelope.from == b.node {
      CachedTurnActs(S, b, nextSeq, At(x, l), x, l.(rec := Tick(l.rec)), row);
    }
  }

  lemma {:induction false} ExecutedActs(S: Session, b: Boundary, nextSeq: nat, x: RunState, l: Loop)
    requires Planned(S, b) && !S.world.interrupted(l.rec.clock) && CachedRow(S, nextSeq).None?
    ensures Leads(S, At(x, l), At(x, TakeTurn(S, b, nextSeq, l).l))
  {
    PollActed(S, x, l);
    LiveTurn(S, b, nextSeq, l);
    LiveTurnActs(S, b, nextSeq, At(x, l), x, l.(rec := Tick(l.rec)));
  }

  lemma {:induction false} TakeTurnActs(S: Session, b: Boundary, nextSeq: nat, x: RunState, l: Loop)
    requires Planned(S, b)
    ensures Leads(S, At(x, l), At(x, TakeTurn(S, b, nextSeq, l).l))
  {
    if S.world.interrupted(l.rec.clock) {
      InterruptedActs(S, b, nextSeq, x, l);
    } else if CachedRow(S, nextSeq).Some? {
      ReplayedActs(S, b, nextSeq, x, l, CachedRow(S, nextSeq).value);
    } else {
      ExecutedActs(S, b, nextSeq, x, l);
    }
  }

  lemma {:induction false} AttemptsActs(S: Session, b: Boundary, nextSeq: nat, x: RunState, l: Loop)
    requires Planned(S, b)
    ensures Leads(S, At(x, l), At(x, Attempts(S, b, nextSeq, l).l))
    decreases RetriesLeft(S, b.node, l)
  {
    var t := TakeTurn(S, b, nextSeq, l);
    TakeTurnActs(S, b, nextSeq, x, l);
    TurnsRunOut(S, b, nextSeq, l);
    if t.Again? {
      AttemptsActs(S, b, nextSeq, x, t.l);
      Then(S, At(x, l), At(x, t.l), At(x, Attempts(S, b, nextSeq, t.l).l));
    }
  }

  // ---------------------------------------------------------------- nodes and runs

  lemma {:induction false} SuspendActs(S: Session, b: Boundary, x: RunState, y: RunState)
    requires Planned(S, b) && Leads(S, x, y)
    ensures var e := BudgetEvent(SuspendLevel, Snapshot(S.budget, y.meter, b.stage.profile.role).sessionSpent, 0);
            Leads(S, x, y.(rec := Emit(Emit(y.rec, e), StopEvent(b, StopEscalate))))
  {
    var e := BudgetEvent(SuspendLevel, Snapshot(S.budget, y.meter, b.stage.profile.role).sessionSpent, 0);
    Next(S, x, y, Announce(e));
    StopActs(S, b, x, y.(rec := Emit(y.rec, e)), StopEscalate);
  }

  lemma {:induction false} CommitActs(S: Session, b: Boundary, x: RunState, s: RunState, l: Loop, p: Product)
    requires Planned(S, b) && Leads(S, x, At(s, l))
    ensures Leads(S, x, CommitNode(S, b, s, l, p).0)
  {
    if InOrder(S, s.durable, b.node) {
      var d := CommitDurable(S, s.durable, b, p);
      var role := b.stage.profile.role;
      var (m, v) := MeterCall(S.budget, l.meter, S.team, role, Llm, 0, 0);
      var concerns := if !v.SpendExceeded? && l.retried then s.concerns + 1 else s.concerns;
      var y := At(s, l).(durable := d, concerns := concerns);
      Next(S, x, At(s, l), Keep(d, concerns));
      Next(S, x, y, Recheck(role));
      var z := y.(meter := m, rec := NoteVerdict(l.rec, v));
      if v.SpendExceeded? {
        SuspendActs(S, b, x, z);
      } else {
        StopActs(S, b, x, z, StopDone);
      }
    }
  }

  lemma {:induction false} FinishActs(S: Session, b: Boundary, x: RunState, s: RunState, t: Turn)
    requires Planned(S, b) && Leads(S, x, At(s, t.l))
    ensures Leads(S, x, FinishNode(S, b, s, t).0)
  {
    if t.Ready? {
      CommitActs(S, b, x, s, t.l, t.product);
    }
  }

  lemma {:induction false} NodeActs(S: Session, s: RunState, n: NodeId, wave: nat)
    ensures Leads(S, s, RunNode(S, s, n, wave).0)
  {
    Stays(S, s);
    if n in S.stages {
      var stage := S.stages[n];
      var e := NodeStart(n, stage.profile.role, wave);
      var b := MakeBoundary(S, s, n, stage, wave);
      PathOne(S, s, Announce(e));
      var y := s.(rec := Emit(s.rec, e));
      PreGatesActs(S, b, y, PreRefs(stage));
      var (r, pre) := PreGates(S, b, s.meter, AttemptOf(s.attempts, n), PreRefs(stage), y.rec);
      var z := s.(rec := r);
      Then(S, s, y, z);
      match pre
      case PrePassed =>
        var l := Loop(r, s.meter, s.routing, s.attempts, false);
        var t := Attempts(S, b, |s.durable.commits| + 1, l);
        AttemptsActs(S, b, |s.durable.commits| + 1, s, l);
        Then(S, s, At(s, l), At(s, t.l));
        FinishActs(S, b, s, s, t);
      case PreBudget => SuspendActs(S, b, s, z);
      case PreRejected => StopActs(S, b, s, z, StopReject);
      case PreRetry =>
    }
  }

  lemma {:induction false} PollActs(S: Session, s: RunState, first: bool)
    ensures Leads(S, s, s.(rec := PollBefore(S, s.rec, first).0))
  {
    PathOne(S, s, Wait);
    Next(S, s, s.(rec := Tick(s.rec)), Wait);
  }

  lemma {:induction false} RunFromActs(S: Session, s: RunState)
    ensures Leads(S, s, RunFrom(S, s).0)
    decreases Monus(|Flatten(S.waves)|, |s.durable.commits|)
  {
    Stays(S, s);
    var order, k := Flatten(S.waves), |s.durable.commits|;
    if k < |order| {
      var (wave, first) := WaveAt(S.waves, k);
      PollActs(S, s, first);
      var (r, stop) := PollBefore(S, s.rec, first);
      var s0 := s.(rec := r);
      if !stop {
        NodeActs(S, s0, order[k], wave);
        var (s1, end) := RunNode(S, s0, order[k], wave);
        Then(S, s, s0, s1);
        if end == Committed {
          CommittedAdvances(S, s0, order[k], wave);
          RunFromActs(S, s1);
          Then(S, s, s1, RunFrom(S, s1).0);
        }
      }
    }
  }

  /** Every run is a list of actions, each allowed when it is taken. */
  lemma {:induction false} RunActs(S: Session)
    ensures Leads(S, InitState(S), Run(S).0)
  {
    RunFromActs(S, InitState(S));
    var (s, e) := RunFrom(S, InitState(S));
    if e.Ended? {
      Next(S, InitState(S), s, Announce(SessionClose(S.sessionId, e.state)));
    }
  }
}
