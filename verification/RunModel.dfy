/**
 * What a session run computes (crates/hesmos-orchestrator/src/runner.rs), as functions of its
 * inputs and of an arbitrary world. The executor, the gates, the cache sentinel and the
 * interrupt flag answer as functions of the number of questions asked so far, so every
 * behaviour of theirs, stateful or not, is one world. A crash of the program is an outcome.
 */
module RunModel {
  import opened Core
  import opened Orders
  import opened Domain
  import opened Waves
  import opened Router
  import opened Budget

  // ---------------------------------------------------------------- the seams

  datatype StageRequest = StageRequest(
    node: NodeId, wave: nat, attempt: nat, role: AgentRole, model: Id, task: string, nodeInput: Json)

  datatype Report = Report(
    payload: Json, confidence: real, tokensIn: nat, tokensOut: nat, latency: nat,
    provider: string, promptHash: Option<Digest>, externalOrigin: Option<string>)

  datatype ExecResult = Finished(report: Report) | StageFailure(reason: ReasonCode)

  datatype GatePhase = PrePhase | PostPhase | G0Phase

  datatype GateRun = GateRun(
    gateRef: GateRef, node: NodeId, phase: GatePhase, envelopeIn: Envelope, envelopeOut: Option<Envelope>,
    contract: HandoffContract, budgetState: BudgetState, attempt: nat,
    grantor: Option<AgentProfile>, escalatedTo: Option<NodeId>)

  datatype GateAnswer = GateAnswer(gateId: Id, verdict: GateVerdict)

  /** A tool the executor dispatched, and whether the boundary accepted its result. */
  datatype ToolUse = ToolUse(tool: Id, ok: bool, latency: nat)

  datatype World = World(
    execute: (nat, StageRequest) -> ExecResult,
    tools: (nat, StageRequest) -> seq<ToolUse>,
    judge: (nat, GateRun) -> GateAnswer,
    violates: (nat, Option<Digest>) -> bool,
    interrupted: nat -> bool,
    contractHash: HandoffContract -> Digest)

  // ---------------------------------------------------------------- inputs of a run

  datatype CachedExecution = CachedExecution(
    envelope: Envelope, confidence: real, tokensIn: nat, tokensOut: nat, latency: nat, provider: string)

  /** A fork replays the origin's response rows up to commit `at`. */
  datatype Fork = Fork(at: nat, responses: map<nat, CachedExecution>)

  datatype Session = Session(
    task: string,
    stages: map<NodeId, StageSpec>,
    g: Digraph,
    waves: seq<seq<NodeId>>,
    policy: PolicySet,
    budget: SessionBudget,
    team: Option<Id>,
    fork: Option<Fork>,
    world: World,
    sessionId: string,
    seed: u64,
    budgetTokens: Option<u64>,
    planHash: Digest)

  /** All waves one after the other: the commit order. */
  function Flatten(ws: seq<seq<NodeId>>): seq<NodeId> {
    if ws == [] then [] else ws[0] + Flatten(ws[1..])
  }

  // ---------------------------------------------------------------- state of a run

  /**
   * A call of the executor: while which commit was next, which question it was, the answer, and
   * the trace place behind the executor's own tool events.
   */
  datatype ExecCall = ExecCall(nextSeq: nat, asked: nat, request: StageRequest, result: ExecResult, at: nat)

  /** A question to a gate: at which trace place its event stands, which question it was, and the answer. */
  datatype GateAsk = GateAsk(at: nat, asked: nat, run: GateRun, answer: GateAnswer)

  /** What every step may add to: events, clock, minimum score and three proof histories. */
  datatype Recorder = Recorder(
    trace: seq<Event>,
    clock: nat,
    minScore: Option<real>,
    calls: seq<ExecCall>,
    exceededAt: Option<nat>,
    asks: seq<GateAsk>)

  datatype StoredCommit = StoredCommit(seqNo: nat, node: NodeId, envelope: Envelope, contract: Option<HandoffContract>)

  /**
   * What only a commit changes: the engine's history and cursor, checkpoint rows, response
   * rows and outputs, with three proof histories: the trace place of each committing gate
   * pass, the length of the trace at each commit, and the external origin each committed
   * report declared.
   */
  datatype Durable = Durable(
    commits: seq<NodeId>,
    cursor: nat,
    pos: nat,
    rows: seq<StoredCommit>,
    responses: map<nat, CachedExecution>,
    outputs: map<NodeId, Envelope>,
    passes: seq<nat>,
    commitAt: seq<nat>,
    origins: map<NodeId, Option<string>>)

  /** Router state, contracts routed into nodes, and the history of accepted handoffs. */
  datatype Routing = Routing(router: RouterState, routedIn: map<NodeId, HandoffContract>, accepted: seq<Handoff>)

  datatype RunState = RunState(
    rec: Recorder, meter: Meter, routing: Routing, attempts: map<NodeId, nat>, durable: Durable, concerns: nat)

  datatype NodeEnd =
    | Committed
    | NodeSuspended(cause: Option<ReasonCode>)
    | NodeFailed(reason: ReasonCode)
    | NodeHalted(reason: ReasonCode)
    | Panicked

  // ---------------------------------------------------------------- recording

  function Emit(r: Recorder, e: Event): Recorder {
    r.(trace := r.trace + [e])
  }

  const EXECUTOR := "executor"

  function ToolEvent(n: NodeId, use: ToolUse): Event {
    ToolCall(n, use.tool, use.ok, use.latency, EXECUTOR)
  }

  /** The events an executor itself appends to the log while it works for node n. */
  function EmitTools(r: Recorder, n: NodeId, uses: seq<ToolUse>): (r': Recorder)
    ensures r' == r.(trace := r'.trace) && r.trace <= r'.trace
    decreases |uses|
  {
    if uses == [] then r else EmitTools(Emit(r, ToolEvent(n, uses[0])), n, uses[1..])
  }

  function Tick(r: Recorder): Recorder {
    r.(clock := r.clock + 1)
  }

  function RecordScore(r: Recorder, score: real): Recorder {
    match r.minScore
    case None => r.(minScore := Some(score))
    case Some(m) => r.(minScore := Some(if score < m then score else m))
  }

  function NoteVerdict(r: Recorder, v: SpendVerdict): Recorder {
    if v.SpendExceeded? && r.exceededAt.None? then r.(exceededAt := Some(|r.trace|)) else r
  }

  function Poll(S: Session, r: Recorder): (Recorder, bool) {
    (Tick(r), S.world.interrupted(r.clock))
  }

  function Score(v: GateVerdict): real {
    match v
    case Pass(s) => s
    case Retry(_, s, _) => s
    case RejectVerdict(_, s) => s
  }

  /** The one event a gate run leaves. */
  function GateEvent(node: NodeId, a: GateAnswer, escalatedTo: Option<NodeId>): Event {
    match a.verdict
    case Pass(s) => GatePass(node, a.gateId, s)
    case Retry(reason, s, left) => GateFail(node, a.gateId, reason, s, Some(left), escalatedTo)
    case RejectVerdict(reason, s) => GateFail(node, a.gateId, reason, s, None, escalatedTo)
  }

  /** Runs one gate: its judgment event is appended and its score recorded. */
  function AskGate(S: Session, r: Recorder, run: GateRun): (Recorder, GateVerdict) {
    var a := S.world.judge(r.clock, run);
    var r1 := r.(asks := r.asks + [GateAsk(|r.trace|, r.clock, run, a)]);
    (RecordScore(Emit(Tick(r1), GateEvent(run.node, a, run.escalatedTo)), Score(a.verdict)), a.verdict)
  }

  // ---------------------------------------------------------------- envelopes and taint

  predicate IsClean(t: Taint) {
    t.Clean?
  }

  /** The first tainted input marks the whole assembly. */
  function MergeTaint(ts: seq<Taint>): Taint {
    if ts == [] then Clean
    else if ts[0].Tainted? then ts[0]
    else MergeTaint(ts[1..])
  }

  /** Marks a clean envelope; the first mark stays. */
  function MarkTainted(e: Envelope, origin: string): Envelope {
    if IsClean(e.taint) then e.(taint := Tainted(origin)) else e
  }

  /** Declared-external data may not stay clean. */
  predicate ImportAllowed(declaredExternal: bool, taint: Taint) {
    !(declaredExternal && IsClean(taint))
  }

  function Derive(e: Envelope, id: nat, to: NodeId, kind: EnvelopeKind, payload: Payload, correlationId: nat): Envelope
  {
    Envelope(id, e.to, to, kind, payload, correlationId, e.taint)
  }

  /** The marks of the listed nodes that have an output, in list order. */
  function TaintsOf(outputs: map<NodeId, Envelope>, preds: seq<NodeId>): seq<Taint> {
    if preds == [] then []
    else if preds[0] in outputs then [outputs[preds[0]].taint] + TaintsOf(outputs, preds[1..])
    else TaintsOf(outputs, preds[1..])
  }

  /** 1-based place in the commit order. */
  function Ordinal(order: seq<NodeId>, n: NodeId): nat {
    if order == [] then 0
    else if order[0] == n then 1
    else 1 + Ordinal(order[1..], n)
  }

  function BuildInput(S: Session, outputs: map<NodeId, Envelope>, n: NodeId, stage: StageSpec): Envelope {
    var preds := Sorted(Preds(S.g, n));
    var ordinal := Ordinal(Flatten(S.waves), n);
    Envelope(
      ordinal,
      if preds == [] then n else preds[0],
      n,
      Task,
      Payload(stage.inputSchema, TaskInput(S.task, map p | p in Preds(S.g, n) && p in outputs :: outputs[p].payload)),
      ordinal,
      MergeTaint(TaintsOf(outputs, preds)))
  }

  /** The sole successor, or the node itself. */
  function OutputTarget(S: Session, n: NodeId): NodeId {
    var succs := Sorted(Succs(S.g, n));
    if |succs| == 1 then succs[0] else n
  }

  function BuildOutput(S: Session, n: NodeId, report: Report, input: Envelope): Envelope {
    var ordinal := Ordinal(Flatten(S.waves), n);
    var out := Derive(input, ordinal * 2, OutputTarget(S, n), Outcome, Payload(Id("out.v1"), report.payload),
                      ordinal * 2);
    match report.externalOrigin
    case None => out
    case Some(origin) => if ImportAllowed(true, out.taint) then out else MarkTainted(out, origin)
  }

  // ---------------------------------------------------------------- contracts

  const HANDOFF_INVARIANT := "goal_original stays byte-identical to the session task in every forwarded contract"

  function StageOf(S: Session, n: NodeId): Option<StageSpec> {
    if n in S.stages then Some(S.stages[n]) else None
  }

  function BuildContract(S: Session, from: NodeId, to: NodeId, stage: StageSpec, out: Envelope,
                         confidence: real): HandoffContract
  {
    var target := StageOf(S, to);
    HandoffContract(
      S.task,
      "handoff to `" + to.name + "`",
      [HANDOFF_INVARIANT],
      if target.Some? then Some(target.value.doneCriteria) else None,
      None,
      None,
      Some([]),
      Some(confidence),
      from,
      Some(to),
      if target.Some? then target.value.profile.tools else {},
      if target.Some? then target.value.profile.network else {},
      SnapshotSlice(S.task, "", Payload(stage.inputSchema, out.payload.json), []))
  }

  function SyntheticContract(n: NodeId, stage: StageSpec): HandoffContract {
    HandoffContract(
      "", "", [], Some(stage.doneCriteria), None, None, None, None, n, Some(n), {}, {},
      SnapshotSlice("", "", Payload(stage.inputSchema, Text("{}")), []))
  }

  // ---------------------------------------------------------------- one node boundary

  /** What is fixed for a node while its attempts run. */
  datatype Boundary = Boundary(
    node: NodeId, stage: StageSpec, wave: nat, input: Envelope,
    routed: Option<HandoffContract>, contract: HandoffContract, grantor: Option<AgentProfile>)

  function MakeBoundary(S: Session, s: RunState, n: NodeId, stage: StageSpec, wave: nat): Boundary {
    var routed := if n in s.routing.routedIn then Some(s.routing.routedIn[n]) else None;
    var contract := if routed.Some? then routed.value else SyntheticContract(n, stage);
    var from := StageOf(S, contract.fromNode);
    Boundary(n, stage, wave, BuildInput(S, s.durable.outputs, n, stage), routed, contract,
             if from.Some? then Some(from.value.profile) else None)
  }

  const G0_GATE := Id("G0")

  function PreRefs(stage: StageSpec): seq<GateRef> {
    Sorted({G0_GATE, Id("permission"), Id("budget"), Id("schema")} + stage.preGates)
  }

  function PostRefs(stage: StageSpec): seq<GateRef> {
    Sorted({Id("schema"), Id("done_criteria"), Id("rubric")} + stage.postGates)
  }

  function StopEvent(b: Boundary, kind: StopKind): Event {
    NodeStop(b.node, b.stage.profile.role, b.wave, kind)
  }

  function AttemptOf(attempts: map<NodeId, nat>, n: NodeId): nat {
    if n in attempts then attempts[n] else 0
  }

  datatype PreEnd = PrePassed | PreBudget | PreRejected | PreRetry

  /** Pre-gates in order until one does not pass. */
  function PreGates(S: Session, b: Boundary, m: Meter, attempt: nat, refs: seq<GateRef>,
                    r: Recorder): (Recorder, PreEnd)
  {
    if refs == [] then (r, PrePassed) else
      var run := GateRun(refs[0], b.node, if refs[0] == G0_GATE then G0Phase else PrePhase, b.input, None, b.contract,
                         Snapshot(S.budget, m, b.stage.profile.role), attempt, b.grantor, None);
      var (r1, v) := AskGate(S, r, run);
      match v
      case Pass(_) => PreGates(S, b, m, attempt, refs[1..], r1)
      case RejectVerdict(reason, _) => (r1, if reason == BUDGET_EXCEEDED then PreBudget else PreRejected)
      case Retry(_, _, _) => (r1, PreRetry)
  }

  function PostRun(S: Session, b: Boundary, m: Meter, attempt: nat, gateRef: GateRef, out: Envelope,
                   escalatedTo: Option<NodeId>): GateRun
  {
    GateRun(gateRef, b.node, PostPhase, b.input, Some(out), b.contract,
            Snapshot(S.budget, m, b.stage.profile.role), attempt, b.grantor, escalatedTo)
  }

  /** Post-gates in order; the first that does not pass, with its verdict. */
  function PostGates(S: Session, b: Boundary, m: Meter, attempt: nat, refs: seq<GateRef>, out: Envelope, r: Recorder)
    : (Recorder, Option<(GateRef, GateVerdict)>)
  {
    if refs == [] then (r, None) else
      var (r1, v) := AskGate(S, r, PostRun(S, b, m, attempt, refs[0], out, None));
      if v.Pass? then PostGates(S, b, m, attempt, refs[1..], out, r1) else (r1, Some((refs[0], v)))
  }

  datatype RouteEnd = AllAccepted | RetryLater | Returned | HaltedBy(reason: ReasonCode)

  /** One handoff per outgoing edge, in order, until one is not accepted. */
  function RouteEdges(S: Session, b: Boundary, out: Envelope, confidence: real, succs: seq<NodeId>, r: Recorder,
                      q: Routing)
    : (Recorder, Routing, RouteEnd)
  {
    if succs == [] then (r, q, AllAccepted) else
      var c := BuildContract(S, b.node, succs[0], b.stage, out, confidence);
      var r1 := Emit(r, HandoffRequest(b.node, S.world.contractHash(c)));
      var (router', d) := Route(S.policy, S.task, q.router, c);
      match d
      case Accept(to) =>
        RouteEdges(S, b, out, confidence, succs[1..], Emit(r1, HandoffAccept(b.node, S.world.contractHash(c), to)),
                   Routing(router', q.routedIn[to := c], q.accepted + [(b.node, to)]))
      case RetryBounded(_, _) => (r1, q.(router := router'), RetryLater)
      case ReturnToSender(_) => (r1, q.(router := router'), Returned)
      case Halt(reason) => (r1, q.(router := router'), HaltedBy(reason))
  }

  // ---------------------------------------------------------------- the attempt loop

  /** What the attempts of a node change. */
  datatype Loop = Loop(rec: Recorder, meter: Meter, routing: Routing, attempts: map<NodeId, nat>, retried: bool)

  datatype NodeOutput = Live(report: Report) | Cached(row: CachedExecution)

  function TokensIn(o: NodeOutput): nat {
    match o case Live(r) => r.tokensIn case Cached(c) => c.tokensIn
  }

  function TokensOut(o: NodeOutput): nat {
    match o case Live(r) => r.tokensOut case Cached(c) => c.tokensOut
  }

  function Latency(o: NodeOutput): nat {
    match o case Live(r) => r.latency case Cached(c) => c.latency
  }

  function ConfidenceOf(o: NodeOutput): real {
    match o case Live(r) => r.confidence case Cached(c) => c.confidence
  }

  function Provider(o: NodeOutput): string {
    match o case Live(r) => r.provider case Cached(c) => c.provider
  }

  function Clamp(x: real): real {
    if x < 0.0 then 0.0 else if x > 1.0 then 1.0 else x
  }

  /**
   * An accepted output on its way to commit, with the trace place of its last gate pass and the
   * length of the trace once its handoffs are recorded.
   */
  datatype Product = Product(out: Envelope, confidence: real, output: NodeOutput, passAt: nat, doneAt: nat)

  /** How one attempt ends: another one, the end of the node, or a product to commit. */
  datatype Turn = Again(l: Loop) | Stop(l: Loop, end: NodeEnd) | Ready(l: Loop, product: Product)

  datatype Obtained = Got(rec: Recorder, output: NodeOutput) | Broken(rec: Recorder, reason: ReasonCode) | ForeignRow

  /** The replayed row of the next commit, if this is a fork that still covers it. */
  function CachedRow(S: Session, nextSeq: nat): Option<CachedExecution> {
    if S.fork.Some? && nextSeq <= S.fork.value.at && nextSeq in S.fork.value.responses
    then Some(S.fork.value.responses[nextSeq]) else None
  }

  /** One call of the executor: its tool events, its answer and the history of the call. */
  function AskExecutor(S: Session, r: Recorder, nextSeq: nat, req: StageRequest): (Recorder, ExecResult) {
    var result := S.world.execute(r.clock, req);
    var worked := EmitTools(r, req.node, S.world.tools(r.clock, req));
    (Tick(worked).(calls := r.calls + [ExecCall(nextSeq, r.clock, req, result, |worked.trace|)]), result)
  }

  /** A cached row, which must belong to the node, or a call of the executor. */
  function Obtain(S: Session, b: Boundary, nextSeq: nat, attempt: nat, r: Recorder): Obtained {
    var row := CachedRow(S, nextSeq);
    if row.Some? then
      if row.value.envelope.from == b.node then Got(r, Cached(row.value)) else ForeignRow
    else
      var req := StageRequest(b.node, b.wave, attempt, b.stage.profile.role, b.stage.profile.model, S.task,
                              b.input.payload.json);
      var (r1, result) := AskExecutor(S, r, nextSeq, req);
      match result
      case Finished(report) => Got(r1, Live(report))
      case StageFailure(reason) => Broken(r1, reason)
  }

  function Bump(l: Loop, n: NodeId): Loop {
    l.(attempts := l.attempts[n := AttemptOf(l.attempts, n) + 1], retried := true)
  }

  /** Ends the node: its stop event is appended. */
  function StopWith(b: Boundary, l: Loop, kind: StopKind, end: NodeEnd): Turn {
    Stop(l.(rec := Emit(l.rec, StopEvent(b, kind))), end)
  }

  /** Retries on the shared budget while it lasts, otherwise ends the node. */
  function RetryOr(S: Session, b: Boundary, l: Loop, attempt: nat, otherwise: Turn): Turn {
    if attempt < S.policy.boundedRetry then Again(Bump(l, b.node)) else otherwise
  }

  function OutputEnvelope(S: Session, b: Boundary, o: NodeOutput): Envelope {
    match o
    case Cached(c) => c.envelope
    case Live(report) => BuildOutput(S, b.node, report, b.input)
  }

  const CACHE_GATE := Id("cache")
  const ROUTER_GATE := Id("router.v1")

  /** A gate.fail the runner itself records, with its score. */
  function FailRecorded(b: Boundary, l: Loop, gateId: Id, reason: ReasonCode, score: real): Loop {
    l.(rec := RecordScore(Emit(l.rec, GateFail(b.node, gateId, reason, score, None, None)), score))
  }

  /** The llm.call event, metering and, on a first warning, its budget event. */
  function MeterTurn(S: Session, b: Boundary, l: Loop, o: NodeOutput): Loop {
    var r1 := Emit(l.rec, LlmCall(b.node, Provider(o), b.stage.profile.model, TokensIn(o), TokensOut(o), Latency(o)));
    var (m, v) := MeterCall(S.budget, l.meter, S.team, b.stage.profile.role, Llm, TokensIn(o), TokensOut(o));
    var r2 := NoteVerdict(r1, v);
    l.(meter := m,
       rec := if v.SpendWarn? then Emit(r2, BudgetEvent(WarnLevel, v.spent,
                                                        if v.remaining.Some? then v.remaining.value else 0)) else r2)
  }

  function LastPlace(es: seq<Event>): nat {
    if es == [] then 0 else |es| - 1
  }

  /** Routing of a fully passed output. */
  function RouteTurn(S: Session, b: Boundary, l: Loop, o: NodeOutput, out: Envelope, confidence: real): Turn {
    var (r, q, end) := RouteEdges(S, b, out, confidence, Sorted(Succs(S.g, b.node)), l.rec, l.routing);
    var l1 := l.(rec := r, routing := q);
    match end
    case AllAccepted => Ready(l1, Product(out, confidence, o, LastPlace(l.rec.trace), |r.trace|))
    case RetryLater => Again(Bump(l1, b.node))
    case Returned =>
      StopWith(b, FailRecorded(b, l1, ROUTER_GATE, GATE_REJECT, confidence), StopReject, NodeFailed(GATE_REJECT))
    case HaltedBy(reason) =>
      StopWith(b, FailRecorded(b, l1, ROUTER_GATE, reason, 0.0), StopEscalate, NodeHalted(reason))
  }

  /** Who hears of an exhausted retry budget: whoever routed here, or the node itself. */
  function Parent(b: Boundary): NodeId {
    if b.routed.Some? then b.routed.value.fromNode else b.node
  }

  /** Post-gates, then routing or the consequence of the first gate that did not pass. */
  function JudgeTurn(S: Session, b: Boundary, l: Loop, attempt: nat, o: NodeOutput): Turn {
    var out := OutputEnvelope(S, b, o);
    var (r, failed) := PostGates(S, b, l.meter, attempt, PostRefs(b.stage), out, l.rec);
    var l1 := l.(rec := r);
    match failed
    case None => RouteTurn(S, b, l1, o, out, Clamp(ConfidenceOf(o)))
    case Some((gateRef, v)) =>
      if v.Retry? then
        var (r2, _) := AskGate(S, r, PostRun(S, b, l.meter, attempt, gateRef, out, Some(Parent(b))));
        RetryOr(S, b, l1, attempt, StopWith(b, l.(rec := r2), StopReject, NodeFailed(GATE_REJECT)))
      else if v.RejectVerdict? && v.reason == BUDGET_EXCEEDED then
        StopWith(b, l1, StopEscalate, NodeSuspended(Some(BUDGET_EXCEEDED)))
      else
        StopWith(b, l1, StopReject, NodeFailed(GATE_REJECT))
  }

  /** One attempt. */
  function TakeTurn(S: Session, b: Boundary, nextSeq: nat, l: Loop): Turn {
    var (r, stop) := Poll(S, l.rec);
    var l0 := l.(rec := r);
    if stop then StopWith(b, l0, StopEscalate, NodeSuspended(None)) else
      var attempt := AttemptOf(l.attempts, b.node);
      match Obtain(S, b, nextSeq, attempt, r)
      case ForeignRow => Stop(l0, Panicked)
      case Broken(r1, reason) =>
        var l1 := l.(rec := r1);
        RetryOr(S, b, l1, attempt, StopWith(b, l1, StopEscalate, NodeHalted(reason)))
      case Got(r1, o) =>
        if o.Live? && S.world.violates(r1.clock, o.report.promptHash) then
          var l1 := l.(rec := RecordScore(Tick(r1), 0.0));
          StopWith(b, l1.(rec := Emit(l1.rec, GateFail(b.node, CACHE_GATE, GATE_REJECT, 0.0, None, None))),
                   StopReject, NodeFailed(GATE_REJECT))
        else
          JudgeTurn(S, b, MeterTurn(S, b, l.(rec := if o.Live? then Tick(r1) else r1), o), attempt, o)
  }

  // ---------------------------------------------------------------- termination of the attempts

  function Monus(a: nat, b: nat): nat {
    if a >= b then a - b else 0
  }

  /** Retries left: on the shared attempt counter plus on the router's per-sender counter. */
  function RetriesLeft(S: Session, n: NodeId, l: Loop): nat {
    Monus(S.policy.boundedRetry, AttemptOf(l.attempts, n))
      + Monus(S.policy.boundedRetry, RetriesOf(l.routing.router, n))
  }

  lemma {:induction false} RouteEdgesRetries(S: Session, b: Boundary, out: Envelope, confidence: real,
                                             succs: seq<NodeId>, r: Recorder, q: Routing)
    ensures var (r', q', end) := RouteEdges(S, b, out, confidence, succs, r, q);
            && q'.router.retries - {b.node} == q.router.retries - {b.node}
            && (end == AllAccepted || end.HaltedBy? ==> q'.router.retries == q.router.retries)
            && RetriesOf(q'.router, b.node) >= RetriesOf(q.router, b.node)
            && (end == RetryLater ==>
                  RetriesOf(q'.router, b.node) == RetriesOf(q.router, b.node) + 1 <= S.policy.boundedRetry)
    decreases |succs|
  {
    if succs != [] {
      var c := BuildContract(S, b.node, succs[0], b.stage, out, confidence);
      var r1 := Emit(r, HandoffRequest(b.node, S.world.contractHash(c)));
      var (router', d) := Route(S.policy, S.task, q.router, c);
      if d.Accept? {
        RouteEdgesRetries(S, b, out, confidence, succs[1..],
                          Emit(r1, HandoffAccept(b.node, S.world.contractHash(c), d.to)),
                          Routing(router', q.routedIn[d.to := c], q.accepted + [(b.node, d.to)]));
      }
    }
  }

  /** A repeated attempt has used up retries; nothing else repeats. */
  ghost predicate UsesRetries(S: Session, n: NodeId, l: Loop, t: Turn) {
    && (t.Again? ==> RetriesLeft(S, n, t.l) < RetriesLeft(S, n, l))
    && (t.Stop? ==> t.end != Committed)
  }

  lemma {:induction false} RouteTurnUsesRetries(S: Session, b: Boundary, l: Loop, o: NodeOutput, out: Envelope,
                                                confidence: real)
    ensures UsesRetries(S, b.node, l, RouteTurn(S, b, l, o, out, confidence))
  {
    RouteEdgesRetries(S, b, out, confidence, Sorted(Succs(S.g, b.node)), l.rec, l.routing);
  }

  lemma {:induction false} JudgeTurnUsesRetries(S: Session, b: Boundary, l: Loop, o: NodeOutput)
    ensures UsesRetries(S, b.node, l, JudgeTurn(S, b, l, AttemptOf(l.attempts, b.node), o))
  {
    var out := OutputEnvelope(S, b, o);
    var (r, failed) := PostGates(S, b, l.meter, AttemptOf(l.attempts, b.node), PostRefs(b.stage), out, l.rec);
    if failed.None? {
      RouteTurnUsesRetries(S, b, l.(rec := r), o, out, Clamp(ConfidenceOf(o)));
    }
  }

  /** Every repeated attempt uses up one unit of the two retry budgets together. */
  lemma {:induction false} TurnsRunOut(S: Session, b: Boundary, nextSeq: nat, l: Loop)
    ensures UsesRetries(S, b.node, l, TakeTurn(S, b, nextSeq, l))
  {
    var (r, stop) := Poll(S, l.rec);
    var got := Obtain(S, b, nextSeq, AttemptOf(l.attempts, b.node), r);
    if got.Got? {
      var r1 := if got.output.Live? then Tick(got.rec) else got.rec;
      JudgeTurnUsesRetries(S, b, MeterTurn(S, b, l.(rec := r1), got.output), got.output);
    }
  }

  /** Attempts until one ends the node or yields a product. */
  function Attempts(S: Session, b: Boundary, nextSeq: nat, l: Loop): Turn
    decreases RetriesLeft(S, b.node, l)
  {
    var t := TakeTurn(S, b, nextSeq, l);
    if t.Again? then
      TurnsRunOut(S, b, nextSeq, l);
      Attempts(S, b, nextSeq, t.l)
    else t
  }

  // ---------------------------------------------------------------- commit

  function CommitRowOf(p: Product): CachedExecution {
    CachedExecution(p.out, ConfidenceOf(p.output), TokensIn(p.output), TokensOut(p.output), Latency(p.output),
                    Provider(p.output))
  }

  function OriginOf(o: NodeOutput): Option<string> {
    match o case Live(r) => r.externalOrigin case Cached(_) => None
  }

  /** The engine accepts only the next node of the active wave. */
  predicate InOrder(S: Session, d: Durable, n: NodeId) {
    d.cursor < |S.waves| && d.pos < |S.waves[d.cursor]| && S.waves[d.cursor][d.pos] == n
  }

  function CommitDurable(S: Session, d: Durable, b: Boundary, p: Product): Durable
    requires InOrder(S, d, b.node)
  {
    var seqNo := |d.commits| + 1;
    var wraps := d.pos + 1 == |S.waves[d.cursor]|;
    Durable(
      d.commits + [b.node],
      if wraps then d.cursor + 1 else d.cursor,
      if wraps then 0 else d.pos + 1,
      d.rows + [StoredCommit(seqNo, b.node, p.out, b.routed)],
      d.responses[seqNo := CommitRowOf(p)],
      d.outputs[b.node := p.out],
      d.passes + [p.passAt],
      d.commitAt + [p.doneAt],
      d.origins[b.node := OriginOf(p.output)])
  }

  /** Engine receipt, checkpoint row, response row, then the budget check of the boundary. */
  function CommitNode(S: Session, b: Boundary, s: RunState, l: Loop, p: Product): (RunState, NodeEnd) {
    if !InOrder(S, s.durable, b.node) then
      (RunState(l.rec, l.meter, l.routing, l.attempts, s.durable, s.concerns), Panicked)
    else
      var d := CommitDurable(S, s.durable, b, p);
      var (m, v) := MeterCall(S.budget, l.meter, S.team, b.stage.profile.role, Llm, 0, 0);
      var r := NoteVerdict(l.rec, v);
      if v.SpendExceeded? then
        var r1 := Emit(r, BudgetEvent(SuspendLevel, Snapshot(S.budget, m, b.stage.profile.role).sessionSpent, 0));
        (RunState(Emit(r1, StopEvent(b, StopEscalate)), m, l.routing, l.attempts, d, s.concerns),
         NodeSuspended(Some(BUDGET_EXCEEDED)))
      else
        (RunState(Emit(r, StopEvent(b, StopDone)), m, l.routing, l.attempts, d,
                  if l.retried then s.concerns + 1 else s.concerns), Committed)
  }

  function FinishNode(S: Session, b: Boundary, s: RunState, t: Turn): (RunState, NodeEnd) {
    match t
    case Ready(l, p) => CommitNode(S, b, s, l, p)
    case Stop(l, end) => (RunState(l.rec, l.meter, l.routing, l.attempts, s.durable, s.concerns), end)
    case Again(l) => (RunState(l.rec, l.meter, l.routing, l.attempts, s.durable, s.concerns), Panicked)
  }

  /** One node boundary. */
  function RunNode(S: Session, s: RunState, n: NodeId, wave: nat): (RunState, NodeEnd) {
    if n !in S.stages then (s, Panicked) else
      var stage := S.stages[n];
      var r0 := Emit(s.rec, NodeStart(n, stage.profile.role, wave));
      var b := MakeBoundary(S, s, n, stage, wave);
      var (r1, pre) := PreGates(S, b, s.meter, AttemptOf(s.attempts, n), PreRefs(stage), r0);
      match pre
      case PrePassed =>
        FinishNode(S, b, s, Attempts(S, b, |s.durable.commits| + 1, Loop(r1, s.meter, s.routing, s.attempts, false)))
      case PreBudget =>
        var r2 := Emit(r1, BudgetEvent(SuspendLevel, Snapshot(S.budget, s.meter, stage.profile.role).sessionSpent, 0));
        (s.(rec := Emit(r2, StopEvent(b, StopEscalate))), NodeSuspended(Some(BUDGET_EXCEEDED)))
      case PreRejected => (s.(rec := Emit(r1, StopEvent(b, StopReject))), NodeFailed(GATE_REJECT))
      case PreRetry => (s.(rec := r1), Panicked)
  }

  // ---------------------------------------------------------------- the run

  /** The wave of a place in the commit order, and whether the place begins it. */
  function WaveAt(ws: seq<seq<NodeId>>, k: nat): (nat, bool)
    decreases |ws|
  {
    if ws == [] then (0, false)
    else if k < |ws[0]| then (0, k == 0)
    else
      var (w, first) := WaveAt(ws[1..], k - |ws[0]|);
      (w + 1, first)
  }

  datatype Ending = Ended(state: SessionState, reason: Option<ReasonCode>) | Crash

  function EndingOf(e: NodeEnd): Ending {
    match e
    case Committed => Ended(Completed, None)
    case NodeSuspended(cause) => Ended(Suspended, cause)
    case NodeFailed(reason) => Ended(Failed, Some(reason))
    case NodeHalted(reason) => Ended(Halted, Some(reason))
    case Panicked => Crash
  }

  /** The interrupt polls before a node: one more when the node begins a wave. */
  function PollBefore(S: Session, r: Recorder, first: bool): (Recorder, bool) {
    var (r1, stop) := Poll(S, r);
    if first && !stop then Poll(S, r1) else (r1, stop)
  }

  lemma {:induction false} CommittedAdvances(S: Session, s: RunState, n: NodeId, wave: nat)
    ensures RunNode(S, s, n, wave).1 == Committed ==>
            RunNode(S, s, n, wave).0.durable.commits == s.durable.commits + [n]
  {
    if n in S.stages {
      var stage := S.stages[n];
      var r0 := Emit(s.rec, NodeStart(n, stage.profile.role, wave));
      var b := MakeBoundary(S, s, n, stage, wave);
      var (r1, pre) := PreGates(S, b, s.meter, AttemptOf(s.attempts, n), PreRefs(stage), r0);
      if pre == PrePassed {
        StopIsNotCommitted(S, b, |s.durable.commits| + 1, Loop(r1, s.meter, s.routing, s.attempts, false));
      }
    }
  }

  lemma {:induction false} StopIsNotCommitted(S: Session, b: Boundary, nextSeq: nat, l: Loop)
    ensures var t := Attempts(S, b, nextSeq, l); !t.Again? && (t.Stop? ==> t.end != Committed)
    decreases RetriesLeft(S, b.node, l)
  {
    var t := TakeTurn(S, b, nextSeq, l);
    TurnsRunOut(S, b, nextSeq, l);
    if t.Again? {
      StopIsNotCommitted(S, b, nextSeq, t.l);
    }
  }

  /** The wave loop from a state on: the nodes in commit order until one does not commit. */
  function RunFrom(S: Session, s: RunState): (RunState, Ending)
    decreases Monus(|Flatten(S.waves)|, |s.durable.commits|)
  {
    var order := Flatten(S.waves);
    var k := |s.durable.commits|;
    if k >= |order| then (s, Ended(Completed, None)) else
      var (wave, first) := WaveAt(S.waves, k);
      var (r, stop) := PollBefore(S, s.rec, first);
      var s0 := s.(rec := r);
      if stop then (s0, Ended(Suspended, None)) else
        var (s1, end) := RunNode(S, s0, order[k], wave);
        if end == Committed then
          CommittedAdvances(S, s0, order[k], wave);
          RunFrom(S, s1)
        else (s1, EndingOf(end))
  }

  function Opening(S: Session): seq<Event> {
    [SessionOpen(S.sessionId, S.seed, S.budgetTokens), PlanCompiled(S.planHash, |S.stages|)]
  }

  function InitState(S: Session): RunState {
    RunState(
      Recorder(Opening(S), 0, None, [], None, []),
      FRESH_METER,
      Routing(RouterState(FRESH_GUARD, map[]), map[], []),
      map[],
      Durable([], 0, 0, [], map[], map[], [], [], map[]),
      0)
  }

  /** A whole session: the wave loop and, unless it crashed, the closing event. */
  function Run(S: Session): (RunState, Ending) {
    var (s, e) := RunFrom(S, InitState(S));
    match e
    case Crash => (s, e)
    case Ended(state, _) => (s.(rec := Emit(s.rec, SessionClose(S.sessionId, state))), e)
  }
}
