/**
 * The data that crosses boundaries: plans, envelopes, contracts, judgments and events
 * (crates/hesmos-core). Floating-point scores and confidences are real numbers.
 */
module Domain {
  import opened Core

  // ---------------------------------------------------------------- payloads and envelopes

  /** A JSON value: leaf text, or the assembled node input with one entry per predecessor. */
  datatype Json =
    | Text(text: string)
    | TaskInput(task: string, inputs: map<NodeId, Payload>)

  datatype Payload = Payload(schemaId: Id, json: Json)

  datatype EnvelopeKind = Task | Outcome | Control | Knowledge

  datatype Taint = Clean | Tainted(origin: string)

  datatype Envelope = Envelope(
    id: nat,
    from: NodeId,
    to: NodeId,
    kind: EnvelopeKind,
    payload: Payload,
    correlationId: nat,
    taint: Taint)

  // ---------------------------------------------------------------- plans

  datatype AgentProfile = AgentProfile(
    role: AgentRole,
    model: Id,
    tools: set<Id>,
    network: set<string>,
    spawnTokenFloor: u64)

  datatype StageSpec = StageSpec(
    id: NodeId,
    profile: AgentProfile,
    inputSchema: Id,
    doneCriteria: seq<string>,
    preGates: set<GateRef>,
    postGates: set<GateRef>,
    isTerminal: bool,
    isRouter: bool)

  datatype PatternKind = Sequential | Parallel | Swarm | Graph

  datatype PlanEdge = PlanEdge(from: NodeId, to: NodeId)

  datatype Plan = Plan(task: string, pattern: PatternKind, stages: seq<StageSpec>, edges: seq<PlanEdge>)

  datatype PolicySet = PolicySet(
    maxHandoffs: nat,
    pingPongWindow: nat,
    boundedRetry: u8,
    minConfidence: real)

  // ---------------------------------------------------------------- handoff contracts

  datatype SnapshotSlice = SnapshotSlice(
    goalOriginal: string,
    prevContractSummary: string,
    nodeInput: Payload,
    sharedKnowledge: seq<string>)

  datatype HandoffContract = HandoffContract(
    goalOriginal: string,
    goalCurrent: string,
    invariants: seq<string>,
    doneCriteria: Option<seq<string>>,
    artifacts: Option<seq<string>>,
    failedApproaches: Option<seq<string>>,
    assumptions: Option<seq<string>>,
    confidence: Option<real>,
    fromNode: NodeId,
    toNode: Option<NodeId>,
    capTools: set<Id>,
    capNetwork: set<string>,
    snapshot: SnapshotSlice)

  datatype ContractJudgment =
    | AcceptContract
    | WarnProceed(field: string)
    | PostGateFail(field: string)
    | Reject(field: string)
    | RejectNoRetry(field: string)
    | BoundedRetry

  datatype RouteDecision =
    | Accept(to: NodeId)
    | ReturnToSender(reason: ReasonCode)
    | RetryBounded(reason: ReasonCode, attemptsLeft: nat)
    | Halt(reason: ReasonCode)

  datatype GateVerdict =
    | Pass(score: real)
    | Retry(reason: ReasonCode, score: real, attemptsLeft: nat)
    | RejectVerdict(reason: ReasonCode, score: real)

  // ---------------------------------------------------------------- events

  datatype StopKind = StopDone | StopReject | StopEscalate

  datatype BudgetLevel = WarnLevel | SuspendLevel

  datatype SessionState = Init | Running | Suspended | Halted | Completed | Cancelled | Failed

  /**
   * The thirteen event kinds, each with the attributes its kind requires; `gate.fail` also
   * carries the optional retry and escalation attributes.
   */
  datatype Event =
    | SessionOpen(sessionId: string, seed: u64, budget: Option<u64>)
    | SessionClose(sessionId: string, finalState: SessionState)
    | PlanCompiled(planHash: Digest, nodeCount: nat)
    | GatePass(node: NodeId, gateId: Id, score: real)
    | GateFail(node: NodeId, gateId: Id, reason: ReasonCode, score: real,
               attemptsLeft: Option<nat>, escalatedTo: Option<NodeId>)
    | NodeStart(node: NodeId, role: AgentRole, wave: nat)
    | NodeStop(node: NodeId, role: AgentRole, wave: nat, stopKind: StopKind)
    | HandoffRequest(node: NodeId, contractHash: Digest)
    | HandoffAccept(node: NodeId, contractHash: Digest, to: NodeId)
    | LlmCall(node: NodeId, provider: string, model: Id, tokensIn: nat, tokensOut: nat, latency: nat)
    | ToolCall(node: NodeId, tool: Id, ok: bool, latency: nat, actor: string)
    | BudgetEvent(level: BudgetLevel, spent: nat, remaining: nat)
    | TraceSeal(chainHead: Digest)
}
