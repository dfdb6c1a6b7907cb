/**
 * The session runner as the program runs it (crates/hesmos-orchestrator/src/runner.rs): one
 * object whose methods update its maps, counters and collaborators in nested loops over waves,
 * nodes, attempts, gates and edges. Every method is proved to do what RunModel says.
 */
module Runner {
  import opened Core
  import opened Orders
  import opened Domain
  import opened Waves
  import opened Router
  import opened Budget
  import opened RunModel
  import opened CommitOrder
  import opened Engine
  import TraceLog

  /** What an attempt comes to: another one, or the end of the node. */
  datatype AttemptOutcome = TryAgain | NodeOver(end: NodeEnd)

  datatype Execution = Output(output: NodeOutput) | Failure(reason: ReasonCode) | WrongRow

  function LoopAt(s: RunState, retried: bool): Loop {
    Loop(s.rec, s.meter, s.routing, s.attempts, retried)
  }

  /** The state a loop state stands for, when nothing durable has changed. */
  function AtLoop(s: RunState, l: Loop): RunState {
    RunState(l.rec, l.meter, l.routing, l.attempts, s.durable, s.concerns)
  }

  function PayloadsOf(outputs: map<NodeId, Envelope>, preds: seq<NodeId>): map<NodeId, Payload> {
    map p | p in preds && p in outputs :: outputs[p].payload
  }

  lemma {:induction false} PayloadsSnoc(outputs: map<NodeId, Envelope>, preds: seq<NodeId>, n: NodeId)
    ensures PayloadsOf(outputs, preds + [n])
            == if n in outputs then PayloadsOf(outputs, preds)[n := outputs[n].payload] else PayloadsOf(outputs, preds)
  {
    assert forall p :: p in preds + [n] <==> p in preds || p == n;
  }

  lemma {:induction false} PayloadsOfSorted(outputs: map<NodeId, Envelope>, preds: set<NodeId>)
    ensures PayloadsOf(outputs, Sorted(preds)) == map p | p in preds && p in outputs :: outputs[p].payload
  {
    SortedSpec(preds);
  }

  /** The outcome of an attempt carries out a turn of the specification from state s. */
  ghost predicate Carries(S: Session, b: Boundary, s: RunState, t: Turn, s': RunState, x: AttemptOutcome) {
    match x
    case TryAgain => t.Again? && s' == AtLoop(s, t.l) && t.l.retried
    case NodeOver(end) => !t.Again? && (s', end) == FinishNode(S, b, s, t)
  }

  lemma {:induction false} BumpCarries(S: Session, b: Boundary, s: RunState, s1: RunState, t: Turn, s': RunState,
                                       retried: bool)
    requires t == Again(Bump(LoopAt(s1, retried), b.node)) && s1 == s.(rec := s1.rec, routing := s1.routing)
    requires s' == s1.(attempts := s1.attempts[b.node := AttemptOf(s1.attempts, b.node) + 1])
    ensures Carries(S, b, s, t, s', TryAgain)
  {
  }

  lemma {:induction false} FinishFrom(S: Session, b: Boundary, s: RunState, s1: RunState, t: Turn)
    requires s1.durable == s.durable && s1.concerns == s.concerns
    ensures FinishNode(S, b, s1, t) == FinishNode(S, b, s, t)
  {
    if t.Ready? {
      CommitFromSame(S, b, s, s1, t.l, t.product);
    }
  }

  /** A node after its pre-gates. */
  function AfterPreGates(S: Session, b: Boundary, s: RunState, pre: PreEnd): (RunState, NodeEnd) {
    match pre
    case PrePassed => FinishNode(S, b, s, Attempts(S, b, |s.durable.commits| + 1, LoopAt(s, false)))
    case PreBudget =>
      var e := BudgetEvent(SuspendLevel, Snapshot(S.budget, s.meter, b.stage.profile.role).sessionSpent, 0);
      (s.(rec := Emit(Emit(s.rec, e), StopEvent(b, StopEscalate))), NodeSuspended(Some(BUDGET_EXCEEDED)))
    case PreRejected => (s.(rec := Emit(s.rec, StopEvent(b, StopReject))), NodeFailed(GATE_REJECT))
    case PreRetry => (s, Panicked)
  }

  lemma {:induction false} RunNodeIs(S: Session, s: RunState, n: NodeId, wave: nat, b: Boundary, s1: RunState,
                                     s2: RunState, pre: PreEnd)
    requires n in S.stages && b == MakeBoundary(S, s1, n, S.stages[n], wave)
    requires s1 == s.(rec := Emit(s.rec, NodeStart(n, S.stages[n].profile.role, wave)))
    requires (s2.rec, pre) == PreGates(S, b, s1.meter, AttemptOf(s1.attempts, b.node), PreRefs(b.stage), s1.rec)
    requires s2 == s1.(rec := s2.rec)
    ensures RunNode(S, s, n, wave) == AfterPreGates(S, b, s2, pre)
  {
    assert b == MakeBoundary(S, s, n, S.stages[n], wave);
    FinishFrom(S, b, s, s2, Attempts(S, b, |s.durable.commits| + 1, LoopAt(s2, false)));
  }

  lemma {:induction false} RouteTurnIs(S: Session, b: Boundary, s: RunState, retried: bool, o: NodeOutput,
                                       out: Envelope, confidence: real,
                                       s1: RunState, end: RouteEnd)
    requires (s1.rec, s1.routing, end) == RouteEdges(S, b, out, confidence, Sorted(Succs(S.g, b.node)), s.rec,
                                                     s.routing)
    requires s1 == s.(rec := s1.rec, routing := s1.routing)
    ensures var l := LoopAt(s1, retried);
            RouteTurn(S, b, LoopAt(s, retried), o, out, confidence)
            == match end
               case AllAccepted => Ready(l, Product(out, confidence, o, LastPlace(s.rec.trace), |s1.rec.trace|))
               case RetryLater => Again(Bump(l, b.node))
               case Returned => StopWith(b, FailRecorded(b, l, ROUTER_GATE, GATE_REJECT, confidence), StopReject,
                                         NodeFailed(GATE_REJECT))
               case HaltedBy(reason) => StopWith(b, FailRecorded(b, l, ROUTER_GATE, reason, 0.0), StopEscalate,
                                                 NodeHalted(reason))
  {
  }

  /** A commit depends on the loop state and on what was durable before. */
  lemma {:induction false} CommitFromSame(S: Session, b: Boundary, s: RunState, s1: RunState, l: Loop, p: Product)
    requires s1.durable == s.durable && s1.concerns == s.concerns
    ensures CommitNode(S, b, s1, l, p) == CommitNode(S, b, s, l, p)
  {
  }

  /** The turn that the first gate that did not pass calls for. */
  function FailedTurn(S: Session, b: Boundary, l: Loop, attempt: nat, out: Envelope, gateRef: GateRef,
                      v: GateVerdict): Turn
  {
    if v.Retry? then
      RetryOr(S, b, l, attempt,
              StopWith(b, l.(rec := AskGate(S, l.rec,
                                            PostRun(S, b, l.meter, attempt, gateRef, out, Some(Parent(b)))).0),
                       StopReject, NodeFailed(GATE_REJECT)))
    else if v.RejectVerdict? && v.reason == BUDGET_EXCEEDED then
      StopWith(b, l, StopEscalate, NodeSuspended(Some(BUDGET_EXCEEDED)))
    else
      StopWith(b, l, StopReject, NodeFailed(GATE_REJECT))
  }

  lemma {:induction false} JudgeTurnIs(S: Session, b: Boundary, s: RunState, retried: bool, attempt: nat, o: NodeOutput,
                                       s1: RunState, failed: Option<(GateRef, GateVerdict)>)
    requires (s1.rec, failed) == PostGates(S, b, s.meter, attempt, PostRefs(b.stage), OutputEnvelope(S, b, o), s.rec)
    requires s1 == s.(rec := s1.rec)
    ensures var l := LoopAt(s1, retried); var out := OutputEnvelope(S, b, o);
            JudgeTurn(S, b, LoopAt(s, retried), attempt, o)
            == match failed
               case None => RouteTurn(S, b, l, o, out, Clamp(ConfidenceOf(o)))
               case Some((gateRef, v)) => FailedTurn(S, b, l, attempt, out, gateRef, v)
  {
  }

  /** A turn carried out from a state carries over to any state with the same durable part. */
  lemma {:induction false} CarriesFrom(S: Session, b: Boundary, s: RunState, s1: RunState, t: Turn, s': RunState,
                                       x: AttemptOutcome)
    requires Carries(S, b, s1, t, s', x) && s1.durable == s.durable && s1.concerns == s.concerns
    ensures Carries(S, b, s, t, s', x)
  {
    if t.Ready? {
      CommitFromSame(S, b, s, s1, t.l, t.product);
    }
  }

  function CacheTurn(b: Boundary, l: Loop): Turn {
    var l1 := l.(rec := RecordScore(l.rec, 0.0));
    StopWith(b, l1.(rec := Emit(l1.rec, GateFail(b.node, CACHE_GATE, GATE_REJECT, 0.0, None, None))), StopReject,
             NodeFailed(GATE_REJECT))
  }

  /** The turn of an output: the cache sentinel, metering, then the gates. */
  function OutputTurn(S: Session, b: Boundary, l: Loop, attempt: nat, o: NodeOutput): Turn {
    var l1 := if o.Live? then l.(rec := Tick(l.rec)) else l;
    if o.Live? && S.world.violates(l.rec.clock, o.report.promptHash) then CacheTurn(b, l1)
    else JudgeTurn(S, b, MeterTurn(S, b, l1, o), attempt, o)
  }

  lemma {:induction false} MeterTurnIs(S: Session, b: Boundary, s: RunState, retried: bool, o: NodeOutput, s1: RunState)
    requires s1 == AtLoop(s, MeterTurn(S, b, LoopAt(s, retried), o))
    ensures LoopAt(s1, retried) == MeterTurn(S, b, LoopAt(s, retried), o)
  {
  }

  lemma {:induction false} TakeTurnIs(S: Session, b: Boundary, nextSeq: nat, s: RunState, retried: bool, s2: RunState,
                                      x: Execution)
    requires !S.world.interrupted(s.rec.clock)
    requires match Obtain(S, b, nextSeq, AttemptOf(s.attempts, b.node), Tick(s.rec))
             case Got(r, o) => x == Output(o) && s2 == s.(rec := r)
             case Broken(r, reason) => x == Failure(reason) && s2 == s.(rec := r)
             case ForeignRow => x == WrongRow && s2 == s.(rec := Tick(s.rec))
    ensures var l := LoopAt(s2, retried); var attempt := AttemptOf(s.attempts, b.node);
            TakeTurn(S, b, nextSeq, LoopAt(s, retried))
            == match x
               case WrongRow => Stop(l, Panicked)
               case Failure(reason) => RetryOr(S, b, l, attempt, StopWith(b, l, StopEscalate, NodeHalted(reason)))
               case Output(o) => OutputTurn(S, b, l, attempt, o)
  {
  }

  /** The attempts are the turn, or the attempts after it; every repetition uses up retries. */
  lemma {:induction false} AttemptsUnfold(S: Session, b: Boundary, nextSeq: nat, l: Loop)
    ensures var t := TakeTurn(S, b, nextSeq, l);
            && Attempts(S, b, nextSeq, l) == (if t.Again? then Attempts(S, b, nextSeq, t.l) else t)
            && (t.Again? ==> RetriesLeft(S, b.node, t.l) < RetriesLeft(S, b.node, l))
  {
    TurnsRunOut(S, b, nextSeq, l);
  }

  /** One handoff and, when it is accepted, what it leaves. */
  function RouteOne(S: Session, b: Boundary, out: Envelope, confidence: real, to: NodeId, r: Recorder, q: Routing)
    : (Recorder, Routing, RouteDecision)
  {
    var c := BuildContract(S, b.node, to, b.stage, out, confidence);
    var r1 := Emit(r, HandoffRequest(b.node, S.world.contractHash(c)));
    var (router', d) := Route(S.policy, S.task, q.router, c);
    if d.Accept? then
      (Emit(r1, HandoffAccept(b.node, S.world.contractHash(c), d.to)),
       Routing(router', q.routedIn[d.to := c], q.accepted + [(b.node, d.to)]), d)
    else (r1, q.(router := router'), d)
  }

  lemma {:induction false} RouteUnfolds(S: Session, b: Boundary, out: Envelope, confidence: real, succs: seq<NodeId>,
                                        i: nat,
                                        r: Recorder, q: Routing, r': Recorder, q': Routing, d: RouteDecision)
    requires i < |succs| && (r', q', d) == RouteOne(S, b, out, confidence, succs[i], r, q)
    ensures RouteEdges(S, b, out, confidence, succs[i..], r, q)
            == match d
               case Accept(_) => RouteEdges(S, b, out, confidence, succs[i + 1..], r', q')
               case RetryBounded(_, _) => (r', q', RetryLater)
               case ReturnToSender(_) => (r', q', Returned)
               case Halt(reason) => (r', q', HaltedBy(reason))
  {
    assert succs[i..][1..] == succs[i + 1..];
  }

  /** The budget check of a boundary whose commit is already persisted. */
  function AfterCommit(S: Session, b: Boundary, s: RunState, retried: bool): (RunState, NodeEnd) {
    var (m, v) := MeterCall(S.budget, s.meter, S.team, b.stage.profile.role, Llm, 0, 0);
    var r := NoteVerdict(s.rec, v);
    if v.SpendExceeded? then
      var r1 := Emit(r, BudgetEvent(SuspendLevel, Snapshot(S.budget, m, b.stage.profile.role).sessionSpent, 0));
      (s.(rec := Emit(r1, StopEvent(b, StopEscalate)), meter := m), NodeSuspended(Some(BUDGET_EXCEEDED)))
    else
      (s.(rec := Emit(r, StopEvent(b, StopDone)), meter := m,
          concerns := if retried then s.concerns + 1 else s.concerns), Committed)
  }

  /** The rows and maps after a commit was stored under its number. */
  function Stored(d: Durable, seqNo: nat, b: Boundary, p: Product): Durable {
    d.(rows := d.rows + [StoredCommit(seqNo, b.node, p.out, b.routed)],
       responses := d.responses[seqNo := CommitRowOf(p)],
       outputs := d.outputs[b.node := p.out],
       passes := d.passes + [p.passAt],
       commitAt := d.commitAt + [p.doneAt],
       origins := d.origins[b.node := OriginOf(p.output)])
  }

  lemma {:induction false} StoredIsCommitted(S: Session, d: Durable, d1: Durable, b: Boundary, p: Product)
    requires InOrder(S, d, b.node)
    requires var c := CommitDurable(S, d, b, p); d1 == d.(commits := c.commits, cursor := c.cursor, pos := c.pos)
    ensures Stored(d1, |d1.commits|, b, p) == CommitDurable(S, d, b, p)
  {
  }

  lemma {:induction false} CommitNodeParts(S: Session, b: Boundary, s: RunState, retried: bool, p: Product)
    ensures CommitNode(S, b, s, LoopAt(s, retried), p)
            == if InOrder(S, s.durable, b.node)
               then AfterCommit(S, b, s.(durable := CommitDurable(S, s.durable, b, p)), retried)
               else (s, Panicked)
  {
  }

  // ---------------------------------------------------------------- waves and the commit order

  /** Place i of wave w in the commit order. */
  ghost predicate WavePlaced(ws: seq<seq<NodeId>>, w: nat, i: nat) {
    && w < |ws| && i < |ws[w]| && StartOf(ws, w) + i < |Flatten(ws)|
    && Flatten(ws)[StartOf(ws, w) + i] == ws[w][i]
    && WaveAt(ws, StartOf(ws, w) + i) == (w, i == 0)
  }

  lemma {:induction false} WavePlace(ws: seq<seq<NodeId>>, w: nat, i: nat)
    requires w < |ws| && i < |ws[w]|
    ensures WavePlaced(ws, w, i)
  {
    FlattenAt(ws, w, i);
    WaveAtUnique(ws, StartOf(ws, w) + i, w);
  }

  lemma {:induction false} WaveNodeIsDue(ws: seq<seq<NodeId>>, w: nat, i: nat)
    requires WavePlaced(ws, w, i)
    ensures ws[w][i] in Flatten(ws)
  {
  }

  /** When a wave's last node has committed the cursor stands at the next wave. */
  lemma {:induction false} CursorAfterWave(ws: seq<seq<NodeId>>, w: nat, cursor: nat, pos: nat)
    requires NonEmptyWaves(ws) && w < |ws| && cursor <= |ws|
    requires StartOf(ws, cursor) + pos == StartOf(ws, w) + |ws[w]|
    requires if cursor < |ws| then pos < |ws[cursor]| else pos == 0
    ensures cursor == w + 1 && pos == 0
  {
    if cursor < w {
      StartOfMonotone(ws, cursor, w);
    } else if cursor > w + 1 {
      StartOfMonotone(ws, w + 1, cursor);
    }
  }

  /** The run from a node on whose wave has already been polled for. */
  function NodeOnward(S: Session, s: RunState): (RunState, Ending)
    requires |s.durable.commits| < |Flatten(S.waves)|
  {
    var k := |s.durable.commits|;
    var s1 := s.(rec := Tick(s.rec));
    if S.world.interrupted(s.rec.clock) then (s1, Ended(Suspended, None)) else
      var (s2, end) := RunNode(S, s1, Flatten(S.waves)[k], WaveAt(S.waves, k).0);
      if end == Committed then RunFrom(S, s2) else (s2, EndingOf(end))
  }

  lemma {:induction false} NodeOnwardIs(S: Session, s: RunState, s1: RunState, n: NodeId, w: nat, s2: RunState,
                                        end: NodeEnd)
    requires |s.durable.commits| < |Flatten(S.waves)| && n == Flatten(S.waves)[|s.durable.commits|]
    requires WaveAt(S.waves, |s.durable.commits|).0 == w
    requires !S.world.interrupted(s.rec.clock) && s1 == s.(rec := Tick(s.rec)) && (s2, end) == RunNode(S, s1, n, w)
    ensures NodeOnward(S, s) == if end == Committed then RunFrom(S, s2) else (s2, EndingOf(end))
    ensures end == Committed ==> |s2.durable.commits| == |s.durable.commits| + 1
  {
    CommittedAdvances(S, s1, n, w);
  }

  /** Past the first node of a wave there is one poll a node. */
  lemma {:induction false} RunFromInside(S: Session, s: RunState, w: nat, i: nat)
    requires WavePlaced(S.waves, w, i) && i > 0 && |s.durable.commits| == StartOf(S.waves, w) + i
    ensures RunFrom(S, s) == NodeOnward(S, s)
  {
    RunFromIs(S, s);
  }

  lemma {:induction false} RunFromIs(S: Session, s: RunState)
    requires |s.durable.commits| < |Flatten(S.waves)|
    ensures RunFrom(S, s)
            == if WaveAt(S.waves, |s.durable.commits|).1 then
                 if S.world.interrupted(s.rec.clock) then (s.(rec := Tick(s.rec)), Ended(Suspended, None))
                 else NodeOnward(S, s.(rec := Tick(s.rec)))
               else NodeOnward(S, s)
  {
  }

  /** A wave begins with its own poll. */
  lemma {:induction false} RunFromWave(S: Session, s: RunState, w: nat)
    requires w < |S.waves| && S.waves[w] != [] && |s.durable.commits| == StartOf(S.waves, w)
    ensures |s.durable.commits| < |Flatten(S.waves)|
    ensures RunFrom(S, s)
            == if S.world.interrupted(s.rec.clock) then (s.(rec := Tick(s.rec)), Ended(Suspended, None))
               else NodeOnward(S, s.(rec := Tick(s.rec)))
  {
    WavePlace(S.waves, w, 0);
    RunFromIs(S, s);
  }

  lemma {:induction false} HeadOfSnoc(h: TraceLog.Hash, es: seq<Event>, e: Event)
    ensures TraceLog.HeadOf(h, es + [e]) == h(TraceLog.HashInput(TraceLog.HeadOf(h, es), |es|, e))
  {
    assert (es + [e])[..|es|] == es;
  }

  class SessionRunner {
    const S: Session
    const compiled: CompiledGraph
    const router: LoopGuardRouter
    const budget: BudgetMeter
    const h: TraceLog.Hash
    var trace: seq<Event>
    var sinkHead: Digest
    var chainHead: Option<Digest>
    var clock: nat
    var routedIn: map<NodeId, HandoffContract>
    var outputs: map<NodeId, Envelope>
    var attempts: map<NodeId, nat>
    var minScore: Option<real>
    var concerns: nat
    var rows: seq<StoredCommit>
    var responses: map<nat, CachedExecution>
    ghost var calls: seq<ExecCall>
    ghost var exceededAt: Option<nat>
    ghost var asks: seq<GateAsk>
    ghost var accepted: seq<Handoff>
    ghost var passes: seq<nat>
    ghost var commitAt: seq<nat>
    ghost var origins: map<NodeId, Option<string>>

    /** Opens the session: the log starts with the session facts and the plan identity. */
    constructor (S: Session, plan: CompiledPlan, receiptHash: (nat, StageOutput) -> Digest, h: TraceLog.Hash)
      requires NonEmptyWaves(S.waves) && plan.waves == S.waves
      ensures this.S == S && this.h == h && Valid() && Abs() == InitState(S)
      ensures fresh(compiled) && fresh(router) && fresh(router.guards) && fresh(budget) && fresh(budget.ledger)
              && fresh(budget.engine)
    {
      this.S := S;
      compiled := new CompiledGraph(plan, receiptHash);
      router := new LoopGuardRouter(S.task, S.policy);
      budget := new BudgetMeter(S.budget, S.team);
      this.h := h;
      trace := Opening(S);
      sinkHead := TraceLog.HeadOf(h, Opening(S));
      chainHead := Some(TraceLog.HeadOf(h, Opening(S)));
      clock, concerns, minScore := 0, 0, None;
      routedIn, outputs, attempts, responses := map[], map[], map[], map[];
      rows := [];
      calls, exceededAt, asks, accepted, passes, commitAt, origins := [], None, [], [], [], [], map[];
    }

    ghost predicate Valid()
      reads this, compiled, router, router.guards, budget, budget.ledger, budget.engine
    {
      && compiled.Valid() && compiled.waves == S.waves
      && router.Valid() && router.task == S.task && router.policy == S.policy
      && budget.Valid() && budget.budget == S.budget && budget.team == S.team
      && |rows| == |compiled.commits|
      && Headed()
    }

    /** The log's own head is the head of the chain of its events. */
    ghost predicate Headed()
      reads this`trace, this`sinkHead
    {
      sinkHead == TraceLog.HeadOf(h, trace)
    }

    ghost function Rec(): Recorder
      reads this
    {
      Recorder(trace, clock, minScore, calls, exceededAt, asks)
    }

    ghost function Kept(): Durable
      reads this, compiled
    {
      Durable(NodesCommitted(compiled.commits), compiled.cursor, compiled.waveCommitPos, rows, responses, outputs,
              passes, commitAt, origins)
    }

    ghost function Abs(): RunState
      reads this, compiled, router, router.guards, budget, budget.ledger, budget.engine
    {
      RunState(Rec(), budget.Abs(), Routing(router.Abs(), routedIn, accepted), attempts, Kept(), concerns)
    }

    // ---------------------------------------------------------------- recording

    /** The log, which the executor writes to as well, chains the event to its head. */
    method AppendToSink(e: Event)
      requires Valid()
      modifies this`trace, this`sinkHead
      ensures Valid() && Abs() == old(Abs()).(rec := Emit(old(Rec()), e))
    {
      HeadOfSnoc(h, trace, e);
      sinkHead := h(TraceLog.HashInput(sinkHead, |trace|, e));
      trace := trace + [e];
    }

    /** An event of the runner: it is appended, and its hash is the runner's chain head. */
    method EmitEvent(e: Event)
      requires Valid()
      modifies this`trace, this`sinkHead, this`chainHead
      ensures Valid() && Abs() == old(Abs()).(rec := Emit(old(Rec()), e))
      ensures chainHead == Some(TraceLog.HeadOf(h, trace))
    {
      AppendToSink(e);
      chainHead := Some(sinkHead);
    }

    method RecordScoreValue(score: real)
      requires Valid()
      modifies this`minScore
      ensures Valid() && Abs() == old(Abs()).(rec := RecordScore(old(Rec()), score))
    {
      match minScore {
        case None => minScore := Some(score);
        case Some(m) => minScore := Some(if score < m then score else m);
      }
    }

    method Interrupted() returns (stop: bool)
      requires Valid()
      modifies this`clock
      ensures Valid() && Abs() == old(Abs()).(rec := Tick(old(Rec()))) && stop == S.world.interrupted(old(clock))
    {
      stop := S.world.interrupted(clock);
      clock := clock + 1;
    }

    method NoteAsk(run: GateRun, a: GateAnswer)
      requires Valid()
      modifies this`clock, this`asks
      ensures Valid()
      ensures Abs() == old(Abs()).(rec := Tick(old(Rec()).(asks := old(asks)
                                          + [GateAsk(|trace|, old(clock), run, a)])))
    {
      asks := asks + [GateAsk(|trace|, clock, run, a)];
      clock := clock + 1;
    }

    /** One gate: its event is emitted by the gate run, its score recorded here. */
    method RunGate(run: GateRun) returns (v: GateVerdict)
      requires Valid()
      modifies this`trace, this`sinkHead, this`chainHead, this`clock, this`minScore, this`asks
      ensures Valid() && Abs() == old(Abs()).(rec := AskGate(S, old(Rec()), run).0)
              && v == AskGate(S, old(Rec()), run).1
    {
      var a := S.world.judge(clock, run);
      NoteAsk(run, a);
      EmitEvent(GateEvent(run.node, a, run.escalatedTo));
      RecordScoreValue(Score(a.verdict));
      v := a.verdict;
    }

    method StopNode(b: Boundary, kind: StopKind)
      requires Valid()
      modifies this`trace, this`sinkHead, this`chainHead
      ensures Valid() && Abs() == old(Abs()).(rec := Emit(old(Rec()), StopEvent(b, kind)))
    {
      EmitEvent(StopEvent(b, kind));
    }

    method BumpAttempt(n: NodeId)
      requires Valid()
      modifies this`attempts
      ensures Valid() && Abs() == old(Abs()).(attempts := old(attempts)[n := AttemptOf(old(attempts), n) + 1])
    {
      var attempt := if n in attempts then attempts[n] else 0;
      attempts := attempts[n := attempt + 1];
    }

    // ---------------------------------------------------------------- envelopes

    /** Counts through the waves to the node. */
    method OrdinalOf(n: NodeId) returns (ordinal: nat)
      requires n in Flatten(S.waves)
      ensures ordinal == Ordinal(Flatten(S.waves), n)
    {
      ordinal := 0;
      var w := 0;
      assert S.waves[0..] == S.waves;
      while w < |S.waves|
        invariant 0 <= w <= |S.waves|
        invariant n in Flatten(S.waves[w..])
        invariant Ordinal(Flatten(S.waves), n) == ordinal + Ordinal(Flatten(S.waves[w..]), n)
      {
        var wave := S.waves[w];
        var rest := Flatten(S.waves[w..][1..]);
        assert S.waves[w..][1..] == S.waves[w + 1..];
        var i := 0;
        assert wave[0..] + rest == wave + rest;
        while i < |wave|
          invariant 0 <= i <= |wave|
          invariant n in wave[i..] + rest
          invariant Ordinal(Flatten(S.waves), n) == ordinal + Ordinal(wave[i..] + rest, n)
        {
          assert (wave[i..] + rest)[1..] == wave[i + 1..] + rest;
          ordinal := ordinal + 1;
          if wave[i] == n {
            return;
          }
          i := i + 1;
        }
        assert wave[i..] + rest == rest;
        w := w + 1;
      }
    }

    /** The payloads and marks of the predecessors that have an output, gathered in order. */
    method GatherInputs(preds: seq<NodeId>) returns (inputs: map<NodeId, Payload>, taints: seq<Taint>)
      ensures inputs == PayloadsOf(outputs, preds) && taints == TaintsOf(outputs, preds)
    {
      inputs, taints := map[], [];
      var i := 0;
      assert preds[0..] == preds;
      while i < |preds|
        invariant 0 <= i <= |preds|
        invariant TaintsOf(outputs, preds) == taints + TaintsOf(outputs, preds[i..])
        invariant inputs == PayloadsOf(outputs, preds[..i])
      {
        assert preds[i..][1..] == preds[i + 1..];
        assert preds[..i + 1] == preds[..i] + [preds[i]];
        PayloadsSnoc(outputs, preds[..i], preds[i]);
        if preds[i] in outputs {
          var env := outputs[preds[i]];
          taints := taints + [env.taint];
          inputs := inputs[preds[i] := env.payload];
        }
        i := i + 1;
      }
      assert preds[..i] == preds;
    }

    method BuildInputEnvelope(n: NodeId, stage: StageSpec) returns (e: Envelope)
      requires n in Flatten(S.waves)
      ensures e == BuildInput(S, outputs, n, stage)
    {
      var ordinal := OrdinalOf(n);
      var preds := Sorted(Preds(S.g, n));
      var inputs, taints := GatherInputs(preds);
      PayloadsOfSorted(outputs, Preds(S.g, n));
      e := Envelope(ordinal, if preds == [] then n else preds[0], n, Task,
                    Payload(stage.inputSchema, TaskInput(S.task, inputs)), ordinal, MergeTaint(taints));
    }

    // ---------------------------------------------------------------- gates

    method PreGateLoop(b: Boundary, attempt: nat, refs: seq<GateRef>) returns (end: PreEnd)
      requires Valid()
      modifies this`trace, this`sinkHead, this`chainHead, this`clock, this`minScore, this`asks
      ensures Valid()
      ensures var (r, e) := PreGates(S, b, old(budget.Abs()), attempt, refs, old(Rec()));
              end == e && Abs() == old(Abs()).(rec := r)
    {
      ghost var m := budget.Abs();
      var i := 0;
      assert refs[0..] == refs;
      while i < |refs|
        invariant 0 <= i <= |refs| && Valid()
        invariant Abs() == old(Abs()).(rec := Rec())
        invariant PreGates(S, b, m, attempt, refs, old(Rec())) == PreGates(S, b, m, attempt, refs[i..], Rec())
      {
        assert refs[i..][1..] == refs[i + 1..];
        var snapshot := budget.TakeSnapshot(b.stage.profile.role);
        var run := GateRun(refs[i], b.node, if refs[i] == G0_GATE then G0Phase else PrePhase, b.input, None, b.contract,
                           snapshot, attempt, b.grantor, None);
        var v := RunGate(run);
        match v {
          case Pass(_) =>
          case RejectVerdict(reason, _) => return if reason == BUDGET_EXCEEDED then PreBudget else PreRejected;
          case Retry(_, _, _) => return PreRetry;
        }
        i := i + 1;
      }
      return PrePassed;
    }

    method PostGateLoop(b: Boundary, attempt: nat, refs: seq<GateRef>, out: Envelope)
      returns (failed: Option<(GateRef, GateVerdict)>)
      requires Valid()
      modifies this`trace, this`sinkHead, this`chainHead, this`clock, this`minScore, this`asks
      ensures Valid()
      ensures var (r, f) := PostGates(S, b, old(budget.Abs()), attempt, refs, out, old(Rec()));
              failed == f && Abs() == old(Abs()).(rec := r)
    {
      ghost var m := budget.Abs();
      var i := 0;
      assert refs[0..] == refs;
      while i < |refs|
        invariant 0 <= i <= |refs| && Valid()
        invariant Abs() == old(Abs()).(rec := Rec())
        invariant PostGates(S, b, m, attempt, refs, out, old(Rec()))
                  == PostGates(S, b, m, attempt, refs[i..], out, Rec())
      {
        assert refs[i..][1..] == refs[i + 1..];
        var snapshot := budget.TakeSnapshot(b.stage.profile.role);
        var run := GateRun(refs[i], b.node, PostPhase, b.input, Some(out), b.contract, snapshot, attempt, b.grantor,
                           None);
        assert run == PostRun(S, b, m, attempt, refs[i], out, None);
        var v := RunGate(run);
        if !v.Pass? {
          return Some((refs[i], v));
        }
        i := i + 1;
      }
      return None;
    }

    // ---------------------------------------------------------------- attempts

    /** What the executor appends to the log while it works. */
    method EmitToolEvents(n: NodeId, uses: seq<ToolUse>)
      requires Valid()
      modifies this`trace, this`sinkHead
      ensures Valid() && Abs() == old(Abs()).(rec := EmitTools(old(Rec()), n, uses))
    {
      var i := 0;
      assert uses[0..] == uses;
      while i < |uses|
        invariant 0 <= i <= |uses| && Valid()
        invariant EmitTools(old(Rec()), n, uses) == EmitTools(Rec(), n, uses[i..])
      {
        assert uses[i..][1..] == uses[i + 1..];
        AppendToSink(ToolEvent(n, uses[i]));
        i := i + 1;
      }
    }

    method NoteCall(nextSeq: nat, request: StageRequest, result: ExecResult)
      requires Valid()
      modifies this`clock, this`calls
      ensures Valid()
      ensures Abs() == old(Abs()).(rec := Tick(old(Rec())).(calls := old(calls)
                                          + [ExecCall(nextSeq, old(clock), request, result, |trace|)]))
    {
      calls := calls + [ExecCall(nextSeq, clock, request, result, |trace|)];
      clock := clock + 1;
    }

    method CallExecutor(nextSeq: nat, request: StageRequest) returns (result: ExecResult)
      requires Valid()
      modifies this`clock, this`calls, this`trace, this`sinkHead
      ensures Valid()
      ensures var (r, answer) := AskExecutor(S, old(Rec()), nextSeq, request);
              result == answer && Abs() == old(Abs()).(rec := r)
    {
      result := S.world.execute(clock, request);
      EmitToolEvents(request.node, S.world.tools(clock, request));
      NoteCall(nextSeq, request, result);
    }

    /** The fork's row for the next commit, or a call of the executor. */
    method Execute(b: Boundary, attempt: nat) returns (x: Execution)
      requires Valid()
      modifies this`clock, this`calls, this`trace, this`sinkHead
      ensures Valid()
      ensures match Obtain(S, b, old(|compiled.commits|) + 1, attempt, old(Rec()))
              case Got(r, o) => x == Output(o) && Abs() == old(Abs()).(rec := r)
              case Broken(r, reason) => x == Failure(reason) && Abs() == old(Abs()).(rec := r)
              case ForeignRow => x == WrongRow && Abs() == old(Abs())
    {
      var nextSeq := |compiled.commits| + 1;
      if S.fork.Some? && nextSeq <= S.fork.value.at && nextSeq in S.fork.value.responses {
        var row := S.fork.value.responses[nextSeq];
        return if row.envelope.from == b.node then Output(Cached(row)) else WrongRow;
      }
      var request := StageRequest(b.node, b.wave, attempt, b.stage.profile.role, b.stage.profile.model, S.task,
                                  b.input.payload.json);
      var result := CallExecutor(nextSeq, request);
      match result {
        case Finished(report) => return Output(Live(report));
        case StageFailure(reason) => return Failure(reason);
      }
    }

    /** Only a live report's prompt hash is verified. */
    method VerifyTurn(o: NodeOutput) returns (violated: bool)
      requires Valid()
      modifies this`clock
      ensures Valid()
      ensures Abs() == old(Abs()).(rec := if o.Live? then Tick(old(Rec())) else old(Rec()))
      ensures violated == (o.Live? && S.world.violates(old(clock), o.report.promptHash))
    {
      if o.Cached? {
        return false;
      }
      violated := S.world.violates(clock, o.report.promptHash);
      clock := clock + 1;
    }

    /** The first verdict that a line is reached is noted with its place in the log. */
    method NoteSpend(v: SpendVerdict)
      requires Valid()
      modifies this`exceededAt
      ensures Valid() && Abs() == old(Abs()).(rec := NoteVerdict(old(Rec()), v))
    {
      if v.SpendExceeded? && exceededAt.None? {
        exceededAt := Some(|trace|);
      }
    }

    /** Meters one call. */
    method MeterSpend(role: AgentRole, tokensIn: nat, tokensOut: nat) returns (v: SpendVerdict)
      requires Valid()
      modifies this`exceededAt, budget, budget.ledger, budget.engine
      ensures Valid()
      ensures var (m, verdict) := MeterCall(S.budget, old(budget.Abs()), S.team, role, Llm, tokensIn, tokensOut);
              v == verdict && Abs() == old(Abs()).(rec := NoteVerdict(old(Rec()), v), meter := m)
    {
      v := budget.MeterOne(role, Llm, tokensIn, tokensOut);
      NoteSpend(v);
    }

    /** The llm.call event, metering and, on a first warning, its budget event. */
    method MeterOutput(b: Boundary, o: NodeOutput, retried: bool)
      requires Valid()
      modifies this`trace, this`sinkHead, this`chainHead, this`exceededAt, budget, budget.ledger, budget.engine
      ensures Valid() && Abs() == AtLoop(old(Abs()), MeterTurn(S, b, LoopAt(old(Abs()), retried), o))
    {
      EmitEvent(LlmCall(b.node, Provider(o), b.stage.profile.model, TokensIn(o), TokensOut(o), Latency(o)));
      var v := MeterSpend(b.stage.profile.role, TokensIn(o), TokensOut(o));
      if v.SpendWarn? {
        EmitEvent(BudgetEvent(WarnLevel, v.spent, if v.remaining.Some? then v.remaining.value else 0));
      }
    }

    // ---------------------------------------------------------------- routing

    ghost function Routed(): Routing
      reads this, router, router.guards
    {
      Routing(router.Abs(), routedIn, accepted)
    }

    method RouteIn(from: NodeId, to: NodeId, c: HandoffContract)
      requires Valid()
      modifies this`routedIn, this`accepted
      ensures Valid()
      ensures Abs() == old(Abs()).(routing := Routing(old(router.Abs()), old(routedIn)[to := c],
                                                      old(accepted) + [(from, to)]))
    {
      routedIn := routedIn[to := c];
      accepted := accepted + [(from, to)];
    }

    /** What an accepted handoff leaves: its event, the contract routed in, the history. */
    method RecordAccept(from: NodeId, to: NodeId, c: HandoffContract)
      requires Valid()
      modifies this`trace, this`sinkHead, this`chainHead, this`routedIn, this`accepted
      ensures Valid()
      ensures Abs() == old(Abs()).(rec := Emit(old(Rec()), HandoffAccept(from, S.world.contractHash(c), to)),
                                   routing := Routing(old(router.Abs()), old(routedIn)[to := c],
                                                      old(accepted) + [(from, to)]))
    {
      EmitEvent(HandoffAccept(from, S.world.contractHash(c), to));
      RouteIn(from, to, c);
    }

    /** The request event and the router's decision. */
    method ProposeHandoff(from: NodeId, c: HandoffContract) returns (d: RouteDecision)
      requires Valid()
      modifies this`trace, this`sinkHead, this`chainHead, router, router.guards
      ensures Valid() && d == Route(S.policy, S.task, old(router.Abs()), c).1
      ensures Abs() == old(Abs()).(rec := Emit(old(Rec()), HandoffRequest(from, S.world.contractHash(c))),
                                   routing := old(Routed()).(router := Route(S.policy, S.task, old(router.Abs()), c).0))
    {
      EmitEvent(HandoffRequest(from, S.world.contractHash(c)));
      d := router.RouteContract(c);
    }

    method RouteEdge(b: Boundary, out: Envelope, confidence: real, to: NodeId) returns (d: RouteDecision)
      requires Valid()
      modifies this`trace, this`sinkHead, this`chainHead, this`routedIn, this`accepted, router, router.guards
      ensures Valid()
      ensures var (r, q, e) := RouteOne(S, b, out, confidence, to, old(Rec()), old(Routed()));
              d == e && Abs() == old(Abs()).(rec := r, routing := q)
    {
      var c := BuildContract(S, b.node, to, b.stage, out, confidence);
      d := ProposeHandoff(b.node, c);
      if d.Accept? {
        RecordAccept(b.node, d.to, c);
      }
    }

    /** One handoff per outgoing edge, until one is not accepted. */
    method RouteLoop(b: Boundary, out: Envelope, confidence: real, succs: seq<NodeId>) returns (end: RouteEnd)
      requires Valid()
      modifies this`trace, this`sinkHead, this`chainHead, this`routedIn, this`accepted, router, router.guards
      ensures Valid()
      ensures var (r, q, e) := RouteEdges(S, b, out, confidence, succs, old(Rec()), old(Routed()));
              end == e && Abs() == old(Abs()).(rec := r, routing := q)
    {
      var i := 0;
      assert succs[0..] == succs;
      while i < |succs|
        invariant 0 <= i <= |succs| && Valid()
        invariant Abs() == old(Abs()).(rec := Rec(), routing := Routed())
        invariant RouteEdges(S, b, out, confidence, succs, old(Rec()), old(Routed()))
                  == RouteEdges(S, b, out, confidence, succs[i..], Rec(), Routed())
      {
        ghost var r, q := Rec(), Routed();
        var d := RouteEdge(b, out, confidence, succs[i]);
        RouteUnfolds(S, b, out, confidence, succs, i, r, q, Rec(), Routed(), d);
        match d {
          case Accept(_) =>
          case RetryBounded(_, _) => return RetryLater;
          case ReturnToSender(_) => return Returned;
          case Halt(reason) => return HaltedBy(reason);
        }
        i := i + 1;
      }
      return AllAccepted;
    }

    /** Records the router's judgment as a gate.fail and ends the node. */
    method FailRoute(b: Boundary, reason: ReasonCode, score: real, kind: StopKind, end: NodeEnd, retried: bool)
      requires Valid()
      modifies this`trace, this`sinkHead, this`chainHead, this`minScore
      ensures Valid()
      ensures (Abs(), end)
              == FinishNode(S, b, old(Abs()),
                 StopWith(b, FailRecorded(b, LoopAt(old(Abs()), retried), ROUTER_GATE, reason, score), kind, end))
    {
      EmitEvent(GateFail(b.node, ROUTER_GATE, reason, score, None, None));
      RecordScoreValue(score);
      StopNode(b, kind);
    }

    /** The engine's receipt; none when the order assertion fires. */
    method TakeReceipt(b: Boundary, p: Product) returns (seqNo: Option<nat>)
      requires Valid()
      modifies compiled
      ensures compiled.Valid()
      ensures seqNo.Some? <==> InOrder(S, old(Kept()), b.node)
      ensures seqNo.None? ==> Kept() == old(Kept()) && Valid()
      ensures seqNo.Some? ==>
                && var d := CommitDurable(S, old(Kept()), b, p);
                && seqNo == Some(|d.commits|) && |compiled.commits| == |rows| + 1
                && Kept() == old(Kept()).(commits := d.commits, cursor := d.cursor, pos := d.pos)
    {
      var receipt := compiled.Commit(StageOutput(b.node, p.out, p.confidence));
      if receipt.None? {
        return None;
      }
      assert NodesCommitted(compiled.commits) == NodesCommitted(old(compiled.commits)) + [b.node];
      return Some(receipt.value.commitSeq);
    }

    /** Checkpoint row, response row, output. */
    method StoreCommit(seqNo: nat, b: Boundary, p: Product)
      modifies this`rows, this`responses, this`outputs, this`passes, this`commitAt, this`origins
      ensures Kept() == Stored(old(Kept()), seqNo, b, p)
      ensures |rows| == old(|rows|) + 1
    {
      rows := rows + [StoredCommit(seqNo, b.node, p.out, b.routed)];
      responses := responses[seqNo := CommitRowOf(p)];
      outputs := outputs[b.node := p.out];
      passes := passes + [p.passAt];
      commitAt := commitAt + [p.doneAt];
      origins := origins[b.node := OriginOf(p.output)];
    }

    /** Engine receipt, checkpoint row, response row and output; nothing when the order assertion fires. */
    method PersistCommit(b: Boundary, p: Product) returns (ok: bool)
      requires Valid()
      modifies this`rows, this`responses, this`outputs, this`passes, this`commitAt, this`origins, compiled
      ensures Valid()
      ensures ok == InOrder(S, old(Kept()), b.node)
      ensures Abs() == if ok then old(Abs()).(durable := CommitDurable(S, old(Kept()), b, p)) else old(Abs())
    {
      var seqNo := TakeReceipt(b, p);
      if seqNo.None? {
        return false;
      }
      StoredIsCommitted(S, old(Kept()), Kept(), b, p);
      StoreCommit(seqNo.value, b, p);
      return true;
    }

    /** The suspend signal: a budget event, then the stop event. */
    method SignalSuspend(b: Boundary)
      requires Valid()
      modifies this`trace, this`sinkHead, this`chainHead
      ensures Valid()
      ensures var e := BudgetEvent(SuspendLevel,
                                   Snapshot(S.budget, old(budget.Abs()), b.stage.profile.role).sessionSpent, 0);
              Abs() == old(Abs()).(rec := Emit(Emit(old(Rec()), e), StopEvent(b, StopEscalate)))
    {
      var snapshot := budget.TakeSnapshot(b.stage.profile.role);
      EmitEvent(BudgetEvent(SuspendLevel, snapshot.sessionSpent, 0));
      StopNode(b, StopEscalate);
    }

    /** A node that is done; one that was retried counts as a concern. */
    method StopDoneNode(b: Boundary, retried: bool)
      requires Valid()
      modifies this`trace, this`sinkHead, this`chainHead, this`concerns
      ensures Valid()
      ensures Abs() == old(Abs()).(rec := Emit(old(Rec()), StopEvent(b, StopDone)),
                                   concerns := if retried then old(concerns) + 1 else old(concerns))
    {
      if retried {
        concerns := concerns + 1;
      }
      StopNode(b, StopDone);
    }

    /** The budget check at the commit boundary, then the stop event. */
    method CloseCommit(b: Boundary, retried: bool) returns (end: NodeEnd)
      requires Valid()
      modifies this`trace, this`sinkHead, this`chainHead, this`exceededAt, this`concerns, budget, budget.ledger,
        budget.engine
      ensures Valid()
      ensures (Abs(), end) == AfterCommit(S, b, old(Abs()), retried)
    {
      var v := MeterSpend(b.stage.profile.role, 0, 0);
      if v.SpendExceeded? {
        SignalSuspend(b);
        return NodeSuspended(Some(BUDGET_EXCEEDED));
      }
      StopDoneNode(b, retried);
      return Committed;
    }

    method CommitBoundary(b: Boundary, p: Product, retried: bool) returns (end: NodeEnd)
      requires Valid()
      modifies this, compiled, budget, budget.ledger, budget.engine
      ensures Valid()
      ensures (Abs(), end) == CommitNode(S, b, old(Abs()), LoopAt(old(Abs()), retried), p)
    {
      CommitNodeParts(S, b, Abs(), retried, p);
      var ok := PersistCommit(b, p);
      if !ok {
        return Panicked;
      }
      end := CloseCommit(b, retried);
    }

    /** Routes a fully passed output and commits it when every edge accepts. */
    method RouteAndCommit(b: Boundary, o: NodeOutput, out: Envelope, confidence: real, retried: bool)
      returns (x: AttemptOutcome)
      requires Valid()
      modifies this, compiled, router, router.guards, budget, budget.ledger, budget.engine
      ensures Valid()
      ensures x == TryAgain ==>
                && Abs() == old(Abs()).(rec := Abs().rec, routing := Abs().routing)
                && RouteTurn(S, b, LoopAt(old(Abs()), retried), o, out, confidence)
                   == Again(Bump(LoopAt(Abs(), retried), b.node))
      ensures x.NodeOver? ==>
                Carries(S, b, old(Abs()), RouteTurn(S, b, LoopAt(old(Abs()), retried), o, out, confidence), Abs(), x)
    {
      ghost var s := Abs();
      var passAt := LastPlace(trace);
      var end := RouteLoop(b, out, confidence, Sorted(Succs(S.g, b.node)));
      RouteTurnIs(S, b, s, retried, o, out, confidence, Abs(), end);
      match end {
        case AllAccepted =>
          var p := Product(out, confidence, o, passAt, |trace|);
          CommitFromSame(S, b, s, Abs(), LoopAt(Abs(), retried), p);
          var e := CommitBoundary(b, p, retried);
          return NodeOver(e);
        case RetryLater =>
          return TryAgain;
        case Returned =>
          FailRoute(b, GATE_REJECT, confidence, StopReject, NodeFailed(GATE_REJECT), retried);
          return NodeOver(NodeFailed(GATE_REJECT));
        case HaltedBy(reason) =>
          FailRoute(b, reason, 0.0, StopEscalate, NodeHalted(reason), retried);
          return NodeOver(NodeHalted(reason));
      }
    }

    /** Carries out a retry turn t taken from state s. */
    method Retry(b: Boundary, retried: bool, ghost s: RunState, ghost t: Turn)
      requires Valid() && t == Again(Bump(LoopAt(Abs(), retried), b.node))
      requires Abs() == s.(rec := Abs().rec, routing := Abs().routing)
      modifies this`attempts
      ensures Valid() && Carries(S, b, s, t, Abs(), TryAgain)
    {
      ghost var s1 := Abs();
      BumpAttempt(b.node);
      BumpCarries(S, b, s, s1, t, Abs(), retried);
    }

    /** Routing with its retry: the runner bumps the shared counter. */
    method RouteOrRetry(b: Boundary, o: NodeOutput, out: Envelope, confidence: real, retried: bool)
      returns (x: AttemptOutcome)
      requires Valid()
      modifies this, compiled, router, router.guards, budget, budget.ledger, budget.engine
      ensures Valid() && Carries(S, b, old(Abs()), RouteTurn(S, b, LoopAt(old(Abs()), retried), o, out, confidence),
                                 Abs(), x)
    {
      ghost var s := Abs();
      x := RouteAndCommit(b, o, out, confidence, retried);
      if x == TryAgain {
        Retry(b, retried, s, RouteTurn(S, b, LoopAt(s, retried), o, out, confidence));
      }
    }

    /** What the first gate that did not pass calls for. */
    method GateFailed(b: Boundary, attempt: nat, out: Envelope, gateRef: GateRef, v: GateVerdict, retried: bool)
      returns (x: AttemptOutcome)
      requires Valid()
      modifies this
      ensures Valid() && Carries(S, b, old(Abs()),
                                 FailedTurn(S, b, LoopAt(old(Abs()), retried), attempt, out, gateRef, v), Abs(), x)
    {
      if v.Retry? && attempt < S.policy.boundedRetry {
        BumpAttempt(b.node);
        return TryAgain;
      }
      if v.Retry? {
        var snapshot := budget.TakeSnapshot(b.stage.profile.role);
        var parent := if b.routed.Some? then b.routed.value.fromNode else b.node;
        var _ := RunGate(GateRun(gateRef, b.node, PostPhase, b.input, Some(out), b.contract, snapshot, attempt,
                                 b.grantor, Some(parent)));
        StopNode(b, StopReject);
        return NodeOver(NodeFailed(GATE_REJECT));
      }
      if v.RejectVerdict? && v.reason == BUDGET_EXCEEDED {
        StopNode(b, StopEscalate);
        return NodeOver(NodeSuspended(Some(BUDGET_EXCEEDED)));
      }
      StopNode(b, StopReject);
      return NodeOver(NodeFailed(GATE_REJECT));
    }

    /** The post-gates' verdict on an output, then routing or what the first failure calls for. */
    method JudgeOutput(b: Boundary, attempt: nat, o: NodeOutput, retried: bool) returns (x: AttemptOutcome)
      requires Valid()
      modifies this, compiled, router, router.guards, budget, budget.ledger, budget.engine
      ensures Valid() && Carries(S, b, old(Abs()), JudgeTurn(S, b, LoopAt(old(Abs()), retried), attempt, o), Abs(), x)
    {
      ghost var s := Abs();
      var out := OutputEnvelope(S, b, o);
      var failed := PostGateLoop(b, attempt, PostRefs(b.stage), out);
      JudgeTurnIs(S, b, s, retried, attempt, o, Abs(), failed);
      ghost var s1 := Abs();
      if failed.None? {
        x := RouteOrRetry(b, o, out, Clamp(ConfidenceOf(o)), retried);
        CarriesFrom(S, b, s, s1, RouteTurn(S, b, LoopAt(s1, retried), o, out, Clamp(ConfidenceOf(o))), Abs(), x);
      } else {
        x := GateFailed(b, attempt, out, failed.value.0, failed.value.1, retried);
        CarriesFrom(S, b, s, s1, FailedTurn(S, b, LoopAt(s1, retried), attempt, out, failed.value.0, failed.value.1),
                    Abs(), x);
      }
    }

    /** The cache sentinel's violation: recorded as a gate.fail, never retried. */
    method FailCache(b: Boundary, retried: bool)
      requires Valid()
      modifies this`trace, this`sinkHead, this`chainHead, this`minScore
      ensures Valid()
      ensures (Abs(), NodeFailed(GATE_REJECT))
              == FinishNode(S, b, old(Abs()), CacheTurn(b, LoopAt(old(Abs()), retried)))
    {
      RecordScoreValue(0.0);
      EmitEvent(GateFail(b.node, CACHE_GATE, GATE_REJECT, 0.0, None, None));
      StopNode(b, StopReject);
    }

    /** A failed execution: another attempt on the shared budget, or the end of the node. */
    method FailExecution(b: Boundary, attempt: nat, reason: ReasonCode, retried: bool) returns (x: AttemptOutcome)
      requires Valid()
      modifies this`trace, this`sinkHead, this`chainHead, this`attempts
      ensures Valid()
      ensures var l := LoopAt(old(Abs()), retried);
              Carries(S, b, old(Abs()), RetryOr(S, b, l, attempt, StopWith(b, l, StopEscalate, NodeHalted(reason))),
                      Abs(), x)
    {
      if attempt < S.policy.boundedRetry {
        BumpAttempt(b.node);
        return TryAgain;
      }
      StopNode(b, StopEscalate);
      return NodeOver(NodeHalted(reason));
    }

    /** Verifies, meters and judges an output. */
    method TakeOutput(b: Boundary, attempt: nat, o: NodeOutput, retried: bool) returns (x: AttemptOutcome)
      requires Valid()
      modifies this, compiled, router, router.guards, budget, budget.ledger, budget.engine
      ensures Valid() && Carries(S, b, old(Abs()), OutputTurn(S, b, LoopAt(old(Abs()), retried), attempt, o), Abs(), x)
    {
      ghost var s := Abs();
      var violated := VerifyTurn(o);
      ghost var s1 := Abs();
      if violated {
        FailCache(b, retried);
        x := NodeOver(NodeFailed(GATE_REJECT));
        CarriesFrom(S, b, s, s1, CacheTurn(b, LoopAt(s1, retried)), Abs(), x);
        return;
      }
      MeterOutput(b, o, retried);
      ghost var s2 := Abs();
      MeterTurnIs(S, b, s1, retried, o, s2);
      x := JudgeOutput(b, attempt, o, retried);
      CarriesFrom(S, b, s, s2, JudgeTurn(S, b, LoopAt(s2, retried), attempt, o), Abs(), x);
    }

    /** One attempt of a node. */
    method TakeAttempt(b: Boundary, retried: bool) returns (x: AttemptOutcome)
      requires Valid()
      modifies this, compiled, router, router.guards, budget, budget.ledger, budget.engine
      ensures Valid()
      ensures Carries(S, b, old(Abs()), TakeTurn(S, b, |old(Kept()).commits| + 1, LoopAt(old(Abs()), retried)), Abs(),
                      x)
    {
      ghost var s := Abs();
      ghost var nextSeq := |compiled.commits| + 1;
      var stop := Interrupted();
      ghost var s1 := Abs();
      if stop {
        StopNode(b, StopEscalate);
        return NodeOver(NodeSuspended(None));
      }
      var attempt := if b.node in attempts then attempts[b.node] else 0;
      var got := Execute(b, attempt);
      ghost var s2 := Abs();
      TakeTurnIs(S, b, nextSeq, s, retried, s2, got);
      match got {
        case WrongRow =>
          return NodeOver(Panicked);
        case Failure(reason) =>
          x := FailExecution(b, attempt, reason, retried);
          CarriesFrom(S, b, s, s2, TakeTurn(S, b, nextSeq, LoopAt(s, retried)), Abs(), x);
        case Output(o) =>
          x := TakeOutput(b, attempt, o, retried);
          CarriesFrom(S, b, s, s2, TakeTurn(S, b, nextSeq, LoopAt(s, retried)), Abs(), x);
      }
    }

    /** The attempt loop of a node. */
    method AttemptLoop(b: Boundary) returns (end: NodeEnd)
      requires Valid()
      modifies this, compiled, router, router.guards, budget, budget.ledger, budget.engine
      ensures Valid()
      ensures (Abs(), end) == FinishNode(S, b, old(Abs()),
                                         Attempts(S, b, |old(Kept()).commits| + 1, LoopAt(old(Abs()), false)))
    {
      ghost var s := Abs();
      ghost var nextSeq := |compiled.commits| + 1;
      var retried := false;
      var x := TryAgain;
      while x == TryAgain
        invariant Valid()
        invariant x == TryAgain ==>
                    && Abs() == AtLoop(s, LoopAt(Abs(), retried))
                    && Attempts(S, b, nextSeq, LoopAt(Abs(), retried)) == Attempts(S, b, nextSeq, LoopAt(s, false))
        invariant x.NodeOver? ==> (Abs(), x.end) == FinishNode(S, b, s, Attempts(S, b, nextSeq, LoopAt(s, false)))
        decreases x == TryAgain, RetriesLeft(S, b.node, LoopAt(Abs(), retried))
      {
        ghost var s1 := Abs();
        AttemptsUnfold(S, b, nextSeq, LoopAt(s1, retried));
        x := TakeAttempt(b, retried);
        CarriesFrom(S, b, s, s1, TakeTurn(S, b, nextSeq, LoopAt(s1, retried)), Abs(), x);
        retried := true;
      }
      end := x.end;
    }

    // ---------------------------------------------------------------- one node

    /** What is fixed for a node while its attempts run. */
    method PrepareBoundary(n: NodeId, stage: StageSpec, wave: nat) returns (b: Boundary)
      requires n in Flatten(S.waves)
      ensures b == MakeBoundary(S, Abs(), n, stage, wave)
    {
      var input := BuildInputEnvelope(n, stage);
      var routed := if n in routedIn then Some(routedIn[n]) else None;
      var contract := if routed.Some? then routed.value else SyntheticContract(n, stage);
      var grantor := if contract.fromNode in S.stages then Some(S.stages[contract.fromNode].profile) else None;
      b := Boundary(n, stage, wave, input, routed, contract, grantor);
    }

    /** The attempt loop when the pre-gates passed, otherwise the end they call for. */
    method FinishBoundary(b: Boundary, pre: PreEnd) returns (end: NodeEnd)
      requires Valid()
      modifies this, compiled, router, router.guards, budget, budget.ledger, budget.engine
      ensures Valid()
      ensures (Abs(), end) == AfterPreGates(S, b, old(Abs()), pre)
    {
      match pre {
        case PrePassed =>
          end := AttemptLoop(b);
        case PreBudget =>
          SignalSuspend(b);
          end := NodeSuspended(Some(BUDGET_EXCEEDED));
        case PreRejected =>
          StopNode(b, StopReject);
          end := NodeFailed(GATE_REJECT);
        case PreRetry =>
          end := Panicked;
      }
    }

    /** One node boundary: pre-gates, then the attempt loop. */
    method RunOneNode(n: NodeId, wave: nat) returns (end: NodeEnd)
      requires Valid() && n in Flatten(S.waves)
      modifies this, compiled, router, router.guards, budget, budget.ledger, budget.engine
      ensures Valid()
      ensures (Abs(), end) == RunNode(S, old(Abs()), n, wave)
    {
      ghost var s := Abs();
      if n !in S.stages {
        return Panicked;
      }
      var stage := S.stages[n];
      EmitEvent(NodeStart(n, stage.profile.role, wave));
      ghost var s1 := Abs();
      var b := PrepareBoundary(n, stage, wave);
      var pre := PreGateLoop(b, if n in attempts then attempts[n] else 0, PreRefs(stage));
      RunNodeIs(S, s, n, wave, b, s1, Abs(), pre);
      end := FinishBoundary(b, pre);
    }

    // ---------------------------------------------------------------- the wave loop

    /** The nodes of the active wave, after the poll at its start; nothing when all committed. */
    method RunWave(w: nat) returns (e: Option<Ending>)
      requires Valid() && w < |S.waves| && compiled.cursor == w && compiled.waveCommitPos == 0
      modifies this, compiled, router, router.guards, budget, budget.ledger, budget.engine
      ensures Valid()
      ensures |old(Kept()).commits| < |Flatten(S.waves)|
      ensures e.Some? ==> (Abs(), e.value) == NodeOnward(S, old(Abs()))
      ensures e.None? ==>
                && compiled.cursor == w + 1 && compiled.waveCommitPos == 0
                && RunFrom(S, Abs()) == NodeOnward(S, old(Abs()))
    {
      var nodes := S.waves[w];
      WavePlace(S.waves, w, 0);
      var i := 0;
      while i < |nodes|
        invariant 0 <= i <= |nodes| && Valid()
        invariant |compiled.commits| == StartOf(S.waves, w) + i
        invariant i < |nodes| ==> WavePlaced(S.waves, w, i) && NodeOnward(S, Abs()) == NodeOnward(S, old(Abs()))
        invariant i == |nodes| ==> RunFrom(S, Abs()) == NodeOnward(S, old(Abs()))
      {
        ghost var s := Abs();
        var stop := Interrupted();
        if stop {
          return Some(Ended(Suspended, None));
        }
        ghost var s1 := Abs();
        WaveNodeIsDue(S.waves, w, i);
        var end := RunOneNode(nodes[i], w);
        NodeOnwardIs(S, s, s1, nodes[i], w, Abs(), end);
        if end != Committed {
          return Some(EndingOf(end));
        }
        i := i + 1;
        if i < |nodes| {
          WavePlace(S.waves, w, i);
          RunFromInside(S, Abs(), w, i);
        }
      }
      CursorAfterWave(S.waves, w, compiled.cursor, compiled.waveCommitPos);
      return None;
    }

    /** The whole session: waves until one does not finish, then the closing event. */
    method RunSession() returns (e: Ending)
      requires Valid() && Abs() == InitState(S)
      modifies this, compiled, router, router.guards, budget, budget.ledger, budget.engine
      ensures Valid()
      ensures (Abs(), e) == Run(S)
      ensures e.Ended? ==> chainHead == Some(TraceLog.HeadOf(h, trace))
    {
      var ended: Option<Ending> := None;
      while ended.None?
        invariant Valid()
        invariant ended.None? ==> compiled.waveCommitPos == 0 && RunFrom(S, Abs()) == RunFrom(S, InitState(S))
        invariant ended.Some? ==> (Abs(), ended.value) == RunFrom(S, InitState(S))
        decreases ended.None?, |S.waves| - compiled.cursor
      {
        var wave := compiled.NextWave();
        if wave.None? {
          ended := Some(Ended(Completed, None));
        } else {
          ghost var s := Abs();
          RunFromWave(S, s, compiled.cursor);
          var stop := Interrupted();
          if stop {
            ended := Some(Ended(Suspended, None));
          } else {
            ended := RunWave(wave.value.0);
          }
        }
      }
      e := ended.value;
      if e.Ended? {
        EmitEvent(SessionClose(S.sessionId, e.state));
      }
    }
  }
}
