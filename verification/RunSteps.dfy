/**
 * One node from the invariant on: a node that commits restores the invariant for one more
 * commit, and a node that ends the run leaves a state that says exactly how far it got.
 */
module RunSteps {
  import opened Core
  import opened Orders
  import opened Domain
  import opened Waves
  import opened Router
  import opened Budget
  import opened RunModel
  import opened Readers
  import opened RunTrace
  import opened RunRouting
  import opened RunEffects
  import opened RunDurable
  import opened RunTaint
  import opened RunInvariant

  // ---------------------------------------------------------------- retries

  /** Counters that only node n moved stay within the given nodes and n. */
  lemma {:induction false} OwnCountersKeep(S: Session, n: NodeId, l: Loop, l': Loop, nodes: set<NodeId>)
    requires OwnCounters(n, l, l', 2 * S.policy.boundedRetry) && AttemptOf(l.attempts, n) == 0
    requires l.attempts.Keys <= nodes && l.routing.router.retries.Keys <= nodes
    requires forall x | x in l.attempts :: l.attempts[x] <= 2 * S.policy.boundedRetry
    requires forall x | x in l.routing.router.retries :: l.routing.router.retries[x] <= S.policy.boundedRetry + 1
    requires RetriesOf(l'.routing.router, n) <= S.policy.boundedRetry + 1
    ensures l'.attempts.Keys <= nodes + {n} && l'.routing.router.retries.Keys <= nodes + {n}
    ensures forall x | x in l'.attempts :: l'.attempts[x] <= 2 * S.policy.boundedRetry
    ensures forall x | x in l'.routing.router.retries :: l'.routing.router.retries[x] <= S.policy.boundedRetry + 1
  {
    forall x | x in l'.attempts ensures x in nodes + {n} && l'.attempts[x] <= 2 * S.policy.boundedRetry {
      if x != n {
        assert x in l'.attempts - {n} && (l'.attempts - {n})[x] == l'.attempts[x];
        assert x in l.attempts - {n} && (l.attempts - {n})[x] == l.attempts[x];
      }
    }
    var (q, q') := (l.routing.router.retries, l'.routing.router.retries);
    forall x | x in q' ensures x in nodes + {n} && q'[x] <= S.policy.boundedRetry + 1 {
      if x != n {
        assert x in q' - {n} && (q' - {n})[x] == q'[x];
        assert x in q - {n} && (q - {n})[x] == q[x];
      }
    }
  }

  // ---------------------------------------------------------------- executor calls

  lemma {:induction false} CountForAdded(calls: seq<ExecCall>, calls': seq<ExecCall>, k: nat, j: nat)
    requires calls <= calls' && forall i | |calls| <= i < |calls'| :: calls'[i].nextSeq == k
    ensures CountFor(calls', j) == CountFor(calls, j) + if j == k then |calls'| - |calls| else 0
    decreases |calls'|
  {
    if calls' != calls {
      CountForAdded(calls, calls'[..|calls'| - 1], k, j);
    }
  }

  lemma {:induction false} NoneCounted(calls: seq<ExecCall>, k: nat, j: nat)
    requires forall i | 0 <= i < |calls| :: calls[i].nextSeq <= k
    requires k < j
    ensures CountFor(calls, j) == 0
    decreases |calls|
  {
    if calls != [] {
      NoneCounted(calls[..|calls| - 1], k, j);
    }
  }

  /** Calls for the next commit keep the calls in order. */
  lemma {:induction false} AddedCallsKeep(S: Session, calls: seq<ExecCall>, calls': seq<ExecCall>, k: nat)
    requires CallsOk(S, calls, k) && k < |Order(S)|
    requires CallsFor(S, Order(S)[k], k + 1, calls, calls', CallBudget(S, k + 1, 2 * S.policy.boundedRetry + 1))
    ensures CallsOk(S, calls', k + 1)
  {
    assert forall i | |calls| <= i < |calls'| :: CallOf(S, Order(S)[k], k + 1, calls'[i]);
    forall j: nat ensures CountFor(calls', j) <= 2 * S.policy.boundedRetry + 1 {
      CountForAdded(calls, calls', k + 1, j);
      if j == k + 1 {
        NoneCounted(calls, k, j);
      }
    }
    forall i | 0 <= i < |calls'|
      ensures 1 <= calls'[i].nextSeq <= k + 1 && CachedRow(S, calls'[i].nextSeq).None?
      ensures CallOf(S, Order(S)[calls'[i].nextSeq - 1], calls'[i].nextSeq, calls'[i])
    {
      if i < |calls| {
        assert calls'[i] == calls[i];
      }
    }
  }

  lemma {:induction false} CallsStayOk(S: Session, calls: seq<ExecCall>, k: nat)
    requires CallsOk(S, calls, k) && k < |Order(S)|
    ensures CallsOk(S, calls, k + 1)
  {
  }

  // ---------------------------------------------------------------- routing

  lemma {:induction false} AcceptedNext(S: Session, k: nat)
    requires k < |Order(S)|
    ensures AcceptedUpTo(S.g, Order(S)[..k + 1])
            == AcceptedUpTo(S.g, Order(S)[..k]) + EdgesOf(Order(S)[k], Sorted(Succs(S.g, Order(S)[k])))
  {
    assert Order(S)[..k + 1] == Order(S)[..k] + [Order(S)[k]];
    AcceptedSnoc(S.g, Order(S)[..k], Order(S)[k]);
  }

  /** The accepted handoffs are edges of the first k + 1 nodes, in order. */
  ghost predicate Accepts(S: Session, k: nat, q: Routing)
    requires k < |Order(S)|
  {
    GuardOk(S, q) && q.accepted <= AcceptedUpTo(S.g, Order(S)[..k + 1])
  }

  lemma {:induction false} TurnAccepts(S: Session, b: Boundary, l: Loop, t: Turn, k: nat)
    requires k < |Order(S)| && b.node == Order(S)[k] && l.routing.accepted == AcceptedUpTo(S.g, Order(S)[..k])
    requires TurnRoutes(S, b, l, t) && !t.Again?
    ensures Accepts(S, k, t.l.routing)
  {
    AcceptedNext(S, k);
  }

  // ---------------------------------------------------------------- what every end keeps

  /** What holds after a node that ran its attempts, committed or not. */
  ghost predicate StepOk(S: Session, s: RunState, s': RunState) {
    && |s.durable.commits| < |Order(S)|
    && CountersOk(S, s', SetOf(s.durable.commits) + {NodeDue(S, s)})
    && CallsOk(S, s'.rec.calls, |s.durable.commits| + 1)
    && Accepts(S, |s.durable.commits|, s'.routing)
  }

  /** The state after the attempts of a node, before or after its end. */
  ghost predicate After(s': RunState, t: Turn) {
    s'.routing == t.l.routing && s'.attempts == t.l.attempts && s'.rec.calls == t.l.rec.calls
  }

  lemma {:induction false} AttemptsKeep(S: Session, s: RunState, b: Boundary, l: Loop, t: Turn, s': RunState)
    requires Due(S, s) && TurnsTaken(S, s, b, l, t) && After(s', t)
    requires l.attempts == s.attempts && l.routing == s.routing && l.rec.calls == s.rec.calls
    ensures StepOk(S, s, s')
  {
    NotYetCommitted(S, s);
    OwnCountersKeep(S, b.node, l, t.l, SetOf(s.durable.commits));
    AddedCallsKeep(S, l.rec.calls, t.l.rec.calls, |s.durable.commits|);
    TurnAccepts(S, b, l, t, |s.durable.commits|);
  }

  // ---------------------------------------------------------------- traces of ends

  /** The trace of a node that ended the run: one more block, not done. */
  ghost predicate TraceEnds(S: Session, s: RunState, s': RunState) {
    && |s.durable.commits| < |Order(S)|
    && Conserved(s'.rec.trace, s'.meter)
    && (exists kind :: kind != StopDone &&
          Parse(s'.rec.trace) == Between(DoneBlocks(S, |s.durable.commits|)
                                         + [Block(NodeDue(S, s), WaveDue(S, s), kind)]))
  }

  lemma {:induction false} StopEventTrace(S: Session, b: Boundary, r: Recorder, kind: StopKind, bs: seq<Block>)
    requires Parse(r.trace) == Inside(bs, b.node, b.wave)
    ensures var es := r.trace + [StopEvent(b, kind)];
            && Parse(es) == Between(bs + [Block(b.node, b.wave, kind)])
            && TraceTokens(es) == TraceTokens(r.trace)
            && ReadPasses(es) == PassReader(None, if ReadPasses(r.trace).last.Some?
                                                  then ReadPasses(r.trace).found + [ReadPasses(r.trace).last.value]
                                                  else ReadPasses(r.trace).found)
  {
    var e := StopEvent(b, kind);
    ParseSnoc(r.trace, e);
    ReadPassesSnoc(r.trace, e);
    TraceTokensSnoc(r.trace, e);
  }

  /** Closing the open block of a node that committed nothing. */
  lemma {:induction false} BlockClosed(S: Session, s: RunState, b: Boundary, r: Recorder, kind: StopKind)
    requires |s.durable.commits| < |Order(S)| && b.node == NodeDue(S, s) && b.wave == WaveDue(S, s) && kind != StopDone
    requires Parse(r.trace) == InsideDue(S, s) && Conserved(r.trace, s.meter)
    ensures TraceEnds(S, s, s.(rec := Emit(r, StopEvent(b, kind))))
  {
    StopEventTrace(S, b, r, kind, DoneBlocks(S, |s.durable.commits|));
  }

  lemma {:induction false} PreStopTrace(S: Session, s: RunState, b: Boundary, r: Recorder, pre: PreEnd)
    requires NodeOpen(S, s, b, r) && (pre == PreBudget || pre == PreRejected)
    ensures TraceEnds(S, s, PreStop(S, b, s, r, pre).0)
  {
    if pre == PreBudget {
      var e := BudgetEvent(SuspendLevel, Snapshot(S.budget, s.meter, b.stage.profile.role).sessionSpent, 0);
      QuietEmit(b.node, r.trace, e);
      BlockClosed(S, s, b, Emit(r, e), StopEscalate);
    } else {
      BlockClosed(S, s, b, r, StopReject);
    }
  }

  lemma {:induction false} StopTrace(S: Session, s: RunState, b: Boundary, r: Recorder, t: Turn)
    requires NodeOpen(S, s, b, r) && TurnTrace(b.node, b.wave, Loop(r, s.meter, s.routing, s.attempts, false), t)
    requires t.Stop? && t.end != Panicked
    ensures TraceEnds(S, s, FinishNode(S, b, s, t).0)
  {
  }

  /** At a product the node is still open and the committing pass is pending. */
  ghost predicate PassPending(S: Session, s: RunState, t: Turn)
    requires t.Ready?
  {
    && |s.durable.commits| < |Order(S)|
    && Parse(t.l.rec.trace) == InsideDue(S, s)
    && ReadPasses(t.l.rec.trace) == PassReader(Some(t.product.passAt), s.durable.passes)
    && Conserved(t.l.rec.trace, t.l.meter)
    && t.product.doneAt == |t.l.rec.trace|
  }

  lemma {:induction false} ReadyTrace(S: Session, s: RunState, b: Boundary, r: Recorder, t: Turn)
    requires NodeOpen(S, s, b, r) && TurnTrace(b.node, b.wave, Loop(r, s.meter, s.routing, s.attempts, false), t)
    requires t.Ready?
    ensures PassPending(S, s, t)
  {
  }

  /** A commit adds the pending pass and closes the block, as done unless a line is reached. */
  ghost predicate CommitRecorded(S: Session, s: RunState, b: Boundary, p: Product, s': RunState, end: NodeEnd)
    requires InOrder(S, s.durable, b.node) && |s.durable.commits| < |Order(S)|
  {
    && s'.durable == CommitDurable(S, s.durable, b, p)
    && (end == Committed || end == NodeSuspended(Some(BUDGET_EXCEEDED)))
    && Parse(s'.rec.trace) == Between(DoneBlocks(S, |s.durable.commits|)
         + [Block(b.node, b.wave, if end == Committed then StopDone else StopEscalate)])
    && ReadPasses(s'.rec.trace) == PassReader(None, s.durable.passes + [p.passAt])
    && Conserved(s'.rec.trace, s'.meter)
  }

  /** The parts of a commit: at most one budget event, then the stop event, and one metering call. */
  lemma {:induction false} CommitNodeParts(S: Session, b: Boundary, s: RunState, l: Loop, p: Product)
    returns (r: Recorder, kind: StopKind)
    requires InOrder(S, s.durable, b.node)
    ensures var (s', end) := CommitNode(S, b, s, l, p);
            && s'.durable == CommitDurable(S, s.durable, b, p)
            && s'.meter == MeterCall(S.budget, l.meter, S.team, b.stage.profile.role, Llm, 0, 0).0
            && s'.rec.trace == r.trace + [StopEvent(b, kind)]
            && (end == Committed || end == NodeSuspended(Some(BUDGET_EXCEEDED)))
            && kind == (if end == Committed then StopDone else StopEscalate)
    ensures r.trace == l.rec.trace || exists e: Event :: e.BudgetEvent? && r.trace == l.rec.trace + [e]
  {
    var role := b.stage.profile.role;
    var (m, v) := MeterCall(S.budget, l.meter, S.team, role, Llm, 0, 0);
    r, kind := NoteVerdict(l.rec, v), StopDone;
    if v.SpendExceeded? {
      var e := BudgetEvent(SuspendLevel, Snapshot(S.budget, m, role).sessionSpent, 0);
      r, kind := Emit(r, e), StopEscalate;
      assert e.BudgetEvent? && r.trace == l.rec.trace + [e];
    }
  }

  /** A budget event changes nothing for the readers. */
  lemma {:induction false} BudgetEventTrace(n: NodeId, es: seq<Event>, es': seq<Event>)
    requires Parse(es).Inside? && Parse(es).node == n
    requires es' == es || exists e: Event :: e.BudgetEvent? && es' == es + [e]
    ensures Parse(es') == Parse(es) && ReadPasses(es') == ReadPasses(es) && TraceTokens(es') == TraceTokens(es)
  {
    if es' != es {
      var e: Event :| e.BudgetEvent? && es' == es + [e];
      QuietEmit(n, es, e);
      ReadPassesSnoc(es, e);
    }
  }

  lemma {:induction false} CommitNodeTrace(S: Session, b: Boundary, s: RunState, l: Loop, p: Product, bs: seq<Block>,
                                           passes: seq<nat>)
    requires InOrder(S, s.durable, b.node)
    requires Parse(l.rec.trace) == Inside(bs, b.node, b.wave)
    requires ReadPasses(l.rec.trace) == PassReader(Some(p.passAt), passes)
    requires Conserved(l.rec.trace, l.meter)
    ensures var (s', end) := CommitNode(S, b, s, l, p);
            && s'.durable == CommitDurable(S, s.durable, b, p)
            && (end == Committed || end == NodeSuspended(Some(BUDGET_EXCEEDED)))
            && Parse(s'.rec.trace) == Between(bs
               + [Block(b.node, b.wave, if end == Committed then StopDone else StopEscalate)])
            && ReadPasses(s'.rec.trace) == PassReader(None, passes + [p.passAt])
            && Conserved(s'.rec.trace, s'.meter)
  {
    var r, kind := CommitNodeParts(S, b, s, l, p);
    MeterCallConserves(S.budget, l.meter, S.team, b.stage.profile.role, 0, 0);
    BudgetEventTrace(b.node, l.rec.trace, r.trace);
    StopEventTrace(S, b, r, kind, bs);
  }

  lemma {:induction false} CommitTrace(S: Session, s: RunState, b: Boundary, t: Turn)
    requires AtBoundary(S, s, b) && t.Ready? && PassPending(S, s, t)
    ensures var (s', end) := CommitNode(S, b, s, t.l, t.product); CommitRecorded(S, s, b, t.product, s', end)
  {
    CommitNodeTrace(S, b, s, t.l, t.product, DoneBlocks(S, |s.durable.commits|), s.durable.passes);
  }

  // ---------------------------------------------------------------- the commit

  lemma {:induction false} CommitKeepsReplay(S: Session, d: Durable, b: Boundary, p: Product)
    requires InOrder(S, d, b.node) && ReplayOk(S, d) && ProductOk(S, b, |d.commits| + 1, p)
    ensures ReplayOk(S, CommitDurable(S, d, b, p))
  {
  }

  /** What a commit makes of the durable and the routing state. */
  ghost predicate CommitKept(S: Session, d: Durable, q: Routing) {
    DurableOk(S, d) && RoutingOk(S, q, d) && ReplayOk(S, d) && TaintOk(S, d)
  }

  lemma {:induction false} ProductIsDue(S: Session, s: RunState, b: Boundary, p: Product)
    requires Due(S, s) && AtBoundary(S, s, b) && ProductOk(S, b, |s.durable.commits| + 1, p)
    ensures CommitDue(S, s.durable, b, p)
  {
    ProductFromNode(S, b, |s.durable.commits| + 1, p);
  }

  lemma {:induction false} CommitKeepsRoutes(S: Session, d: Durable, b: Boundary, l: Loop, t: Turn)
    requires t.Ready? && CommitDue(S, d, b, t.product) && b.node in S.stages && b.stage == S.stages[b.node]
    requires TurnRoutes(S, b, l, t) && RoutingOk(S, l.routing, d)
    requires t.product.confidence == Clamp(ConfidenceOf(t.product.output))
    ensures RoutingOk(S, t.l.routing, CommitDurable(S, d, b, t.product))
  {
    CommitKeepsRouting(S, d, b, t.product, l.routing, t.l.routing);
  }

  lemma {:induction false} CommitKeepsMarks(S: Session, d: Durable, b: Boundary, p: Product)
    requires CommitDue(S, d, b, p) && TaintOk(S, d) && ProductOk(S, b, |d.commits| + 1, p)
    requires b.node in S.stages && b.input == BuildInput(S, d.outputs, b.node, b.stage)
    ensures TaintOk(S, CommitDurable(S, d, b, p))
  {
    CommitKeepsTaint(S, d, b, p);
  }

  lemma {:induction false} CommitKeeps(S: Session, d: Durable, b: Boundary, l: Loop, t: Turn)
    requires t.Ready? && CommitDue(S, d, b, t.product) && b.node in S.stages && b.stage == S.stages[b.node]
    requires b.input == BuildInput(S, d.outputs, b.node, b.stage) && RoutingOk(S, l.routing, d)
    requires TurnRoutes(S, b, l, t) && ProductOk(S, b, |d.commits| + 1, t.product)
    requires ReplayOk(S, d) && TaintOk(S, d)
    ensures CommitKept(S, CommitDurable(S, d, b, t.product), t.l.routing)
  {
    CommitKeepsDurable(S, d, b, t.product);
    CommitKeepsReplay(S, d, b, t.product);
    CommitKeepsRoutes(S, d, b, l, t);
    CommitKeepsMarks(S, d, b, t.product);
  }

  // ---------------------------------------------------------------- commit places

  /** A commit is stored at the place its product was done. */
  lemma {:induction false} CommitIsPlaced(S: Session, s: RunState, b: Boundary, t: Turn, s': RunState)
    requires AtBoundary(S, s, b) && t.Ready? && PassPending(S, s, t)
    requires |s.durable.passes| == |s.durable.commits| && CommitsPlaced(S, s.rec.trace, s.durable)
    requires s.rec.trace <= s'.rec.trace && t.l.rec.trace <= s'.rec.trace
    requires s'.durable == CommitDurable(S, s.durable, b, t.product)
    requires ReadPasses(s'.rec.trace).found == s.durable.passes + [t.product.passAt]
    ensures CommitsPlaced(S, s'.rec.trace, s'.durable)
  {
    var es, d, d', n := s'.rec.trace, s.durable, s'.durable, |s.durable.passes|;
    CommitsStayPlaced(S, s.rec.trace, es, d);
    PendingIsPlace(t.l.rec.trace);
    assert es[..t.product.doneAt] == t.l.rec.trace;
    assert d'.passes[..n] == d.passes;
    forall k: nat | k < n + 1 ensures StoredInBlock(S, es, d', k) {
      if k < n {
        assert StoredInBlock(S, es, d, k);
        assert d'.passes[..k] == d.passes[..k];
      }
    }
  }

  // ---------------------------------------------------------------- suspend lines

  /** A line reached by metering stands inside the open block, and a commit then ends the run. */
  ghost predicate LineStops(S: Session, s: RunState, s': RunState, end: NodeEnd) {
    && |s.durable.commits| < |Order(S)|
    && (end == Committed ==> s'.rec.exceededAt.None?)
    && (end != Committed && s'.durable != s.durable ==> s'.rec.exceededAt.Some?)
    && (s'.rec.exceededAt.Some? ==>
          && s'.rec.exceededAt.value <= |s'.rec.trace|
          && Parse(s'.rec.trace[..s'.rec.exceededAt.value]) == InsideDue(S, s))
  }

  lemma {:induction false} CommitAppends(S: Session, b: Boundary, s: RunState, l: Loop, product: Product)
    requires InOrder(S, s.durable, b.node)
    ensures var (s', end) := CommitNode(S, b, s, l, product);
            var (m, v) := MeterCall(S.budget, l.meter, S.team, b.stage.profile.role, Llm, 0, 0);
            && Appends(NoteVerdict(l.rec, v), s'.rec) && s'.meter == m
            && (end == Committed <==> !v.SpendExceeded?)
  {
  }

  lemma {:induction false} CommitNodeLine(S: Session, b: Boundary, p: ParseState, s: RunState, l: Loop,
                                          product: Product)
    requires Paired(S.budget) && LoopLine(S, b, p, l) && Parse(l.rec.trace) == p && InOrder(S, s.durable, b.node)
    ensures var (s', end) := CommitNode(S, b, s, l, product);
            && (end == Committed <==> s'.rec.exceededAt.None?)
            && (s'.rec.exceededAt.Some? ==>
                  && s'.rec.exceededAt.value <= |s'.rec.trace|
                  && Parse(s'.rec.trace[..s'.rec.exceededAt.value]) == p)
  {
    var role := b.stage.profile.role;
    MeterKeepsLine(S, role, p, l.rec, l.meter, 0, 0);
    CommitAppends(S, b, s, l, product);
    var (m, v) := MeterCall(S.budget, l.meter, S.team, role, Llm, 0, 0);
    AppendsKeepsLine(S, role, p, NoteVerdict(l.rec, v), CommitNode(S, b, s, l, product).0.rec, m);
  }

  lemma {:induction false} CommitLine(S: Session, s: RunState, b: Boundary, t: Turn)
    requires Paired(S.budget) && AtBoundary(S, s, b) && LoopLine(S, b, InsideDue(S, s), t.l)
    requires t.Ready? && Parse(t.l.rec.trace) == InsideDue(S, s)
    ensures var (s', end) := CommitNode(S, b, s, t.l, t.product); LineStops(S, s, s', end)
  {
    CommitNodeLine(S, b, InsideDue(S, s), s, t.l, t.product);
  }

  // ---------------------------------------------------------------- one node

  /** What holds after the node that ended a run without a crash. */
  ghost predicate EndsOk(S: Session, s: RunState, s': RunState, end: NodeEnd) {
    && Due(S, s)
    && (s'.durable == s.durable
        || (s'.durable.commits == s.durable.commits + [NodeDue(S, s)] && end == NodeSuspended(Some(BUDGET_EXCEEDED))))
    && DurableOk(S, s'.durable) && ReplayOk(S, s'.durable)
    && TraceEnds(S, s, s') && s.rec.trace <= s'.rec.trace
    && StepOk(S, s, s')
    && HaltExplained(end, s'.rec.calls)
    && LineStops(S, s, s', end)
    && TaintOk(S, s'.durable)
    && CommitsPlaced(S, s'.rec.trace, s'.durable)
  }

  /** The replayed row of a commit belongs to another node than the order's. */
  ghost predicate SomeForeignRow(S: Session) {
    exists k: nat :: 1 <= k <= |Order(S)| && CachedRow(S, k).Some?
      && CachedRow(S, k).value.envelope.from != Order(S)[k - 1]
  }

  /** The three outcomes of a node: committed, run over, or a crash with a cause. */
  ghost predicate NodeOutcome(S: Session, s: RunState, s': RunState, end: NodeEnd) {
    match end
    case Committed => |s.durable.commits| < |Order(S)| && Inv(S, s')
      && s'.durable.commits == s.durable.commits + [NodeDue(S, s)]
    case Panicked =>
      && (SomePreRetry(S) || SomeForeignRow(S)) && Due(S, s)
      && s.rec.trace <= s'.rec.trace && s'.durable == s.durable && StepOk(S, s, s')
      && Parse(s'.rec.trace) == InsideDue(S, s) && Conserved(s'.rec.trace, s'.meter)
    case _ => EndsOk(S, s, s', end)
  }

  /** The calls, counters and handoffs of a node whose attempts never began. */
  lemma {:induction false} NothingTaken(S: Session, s: RunState, s': RunState)
    requires |s.durable.commits| < |Order(S)| && CountersOk(S, s, SetOf(s.durable.commits))
    requires CallsOk(S, s.rec.calls, |s.durable.commits|) && GuardOk(S, s.routing)
    requires s.routing.accepted == AcceptedUpTo(S.g, Order(S)[..|s.durable.commits|])
    requires s'.attempts == s.attempts && s'.routing == s.routing && s'.rec.calls == s.rec.calls
    ensures StepOk(S, s, s')
  {
    AcceptedNext(S, |s.durable.commits|);
    CallsStayOk(S, s.rec.calls, |s.durable.commits|);
  }

  lemma {:induction false} PreStopExtends(S: Session, b: Boundary, s: RunState, r: Recorder, pre: PreEnd)
    ensures var s' := PreStop(S, b, s, r, pre).0;
            && s' == s.(rec := s'.rec) && r.trace <= s'.rec.trace
            && s'.rec.calls == r.calls && s'.rec.exceededAt == r.exceededAt
  {
  }

  lemma {:induction false} PreStopOutcome(S: Session, s: RunState, b: Boundary, r: Recorder, pre: PreEnd)
    requires Due(S, s) && NodeOpen(S, s, b, r) && pre != PrePassed && (pre == PreRetry ==> SomePreRetry(S))
    ensures var (s', end) := PreStop(S, b, s, r, pre); NodeOutcome(S, s, s', end)
  {
    var s' := PreStop(S, b, s, r, pre).0;
    PreStopExtends(S, b, s, r, pre);
    NothingTaken(S, s, s');
    if pre != PreRetry {
      PreStopTrace(S, s, b, r, pre);
      CommitsStayPlaced(S, s.rec.trace, s'.rec.trace, s.durable);
    }
  }

  lemma {:induction false} StopOutcome(S: Session, s: RunState, b: Boundary, r: Recorder, t: Turn)
    requires Due(S, s) && NodeOpen(S, s, b, r) && t.Stop?
    requires TurnsTaken(S, s, b, Loop(r, s.meter, s.routing, s.attempts, false), t)
    ensures var (s', end) := FinishNode(S, b, s, t); NodeOutcome(S, s, s', end)
  {
    var l := Loop(r, s.meter, s.routing, s.attempts, false);
    var s' := FinishNode(S, b, s, t).0;
    AttemptsKeep(S, s, b, l, t, s');
    if t.end == Panicked {
      var k := |s.durable.commits| + 1;
      assert CachedRow(S, k).value.envelope.from != Order(S)[k - 1];
    } else {
      StopTrace(S, s, b, r, t);
      CommitsStayPlaced(S, s.rec.trace, s'.rec.trace, s.durable);
    }
  }

  /** Everything the outcome of a committed product rests on. */
  ghost predicate Persisted(S: Session, s: RunState, b: Boundary, t: Turn, s': RunState, end: NodeEnd) {
    && Due(S, s) && AtBoundary(S, s, b) && t.Ready?
    && CommitRecorded(S, s, b, t.product, s', end) && CommitKept(S, s'.durable, s'.routing)
    && StepOk(S, s, s') && LineStops(S, s, s', end) && s.rec.trace <= s'.rec.trace
    && CommitsPlaced(S, s'.rec.trace, s'.durable)
  }

  lemma {:induction false} CommitRestoresInv(S: Session, s: RunState, b: Boundary, t: Turn, s': RunState)
    requires Persisted(S, s, b, t, s', Committed)
    ensures Inv(S, s')
  {
    DoneBlocksSnoc(S, |s.durable.commits|);
    SetOfSnoc(s.durable.commits, NodeDue(S, s));
  }

  lemma {:induction false} CommitEndsRun(S: Session, s: RunState, b: Boundary, t: Turn, s': RunState, end: NodeEnd)
    requires Persisted(S, s, b, t, s', end) && end != Committed
    ensures EndsOk(S, s, s', end)
  {
    assert StopEscalate != StopDone;
  }

  lemma {:induction false} CommitOutcome(S: Session, s: RunState, b: Boundary, t: Turn, s': RunState, end: NodeEnd)
    requires Persisted(S, s, b, t, s', end)
    ensures NodeOutcome(S, s, s', end)
  {
    if end == Committed {
      CommitRestoresInv(S, s, b, t, s');
    } else {
      CommitEndsRun(S, s, b, t, s', end);
    }
  }

  lemma {:induction false} CommitAfter(S: Session, s: RunState, b: Boundary, t: Turn)
    requires t.Ready? && InOrder(S, s.durable, b.node)
    ensures After(CommitNode(S, b, s, t.l, t.product).0, t)
  {
  }

  lemma {:induction false} CommitExtends(S: Session, s: RunState, b: Boundary, t: Turn)
    requires t.Ready? && InOrder(S, s.durable, b.node) && s.rec.trace <= t.l.rec.trace
    ensures s.rec.trace <= CommitNode(S, b, s, t.l, t.product).0.rec.trace
    ensures t.l.rec.trace <= CommitNode(S, b, s, t.l, t.product).0.rec.trace
  {
    CommitAppends(S, b, s, t.l, t.product);
  }

  /** What the commit of a product records. */
  lemma {:induction false} CommitProduct(S: Session, s: RunState, b: Boundary, t: Turn)
    returns (s': RunState, end: NodeEnd)
    requires AtBoundary(S, s, b) && Paired(S.budget) && t.Ready? && PassPending(S, s, t)
    requires LoopLine(S, b, InsideDue(S, s), t.l) && s.rec.trace <= t.l.rec.trace
    ensures (s', end) == FinishNode(S, b, s, t)
    ensures CommitRecorded(S, s, b, t.product, s', end) && LineStops(S, s, s', end) && After(s', t)
    ensures s.rec.trace <= s'.rec.trace && t.l.rec.trace <= s'.rec.trace
  {
    CommitTrace(S, s, b, t);
    CommitLine(S, s, b, t);
    CommitAfter(S, s, b, t);
    CommitExtends(S, s, b, t);
    s', end := CommitNode(S, b, s, t.l, t.product).0, CommitNode(S, b, s, t.l, t.product).1;
  }

  /** What a commit of the node that is due can rely on. */
  ghost predicate ProductDue(S: Session, d: Durable, q: Routing, b: Boundary, p: Product) {
    && CommitDue(S, d, b, p) && b.node in S.stages && b.stage == S.stages[b.node]
    && b.input == BuildInput(S, d.outputs, b.node, b.stage)
    && RoutingOk(S, q, d) && ReplayOk(S, d) && TaintOk(S, d)
  }

  lemma {:induction false} BoundaryGives(S: Session, s: RunState, b: Boundary, p: Product)
    requires Due(S, s) && AtBoundary(S, s, b) && ProductOk(S, b, |s.durable.commits| + 1, p)
    ensures ProductDue(S, s.durable, s.routing, b, p)
  {
    ProductIsDue(S, s, b, p);
  }

  lemma {:induction false} DueProductKept(S: Session, s: RunState, b: Boundary, l: Loop, t: Turn, s': RunState,
                                          end: NodeEnd)
    requires t.Ready? && ProductDue(S, s.durable, l.routing, b, t.product)
    requires TurnRoutes(S, b, l, t) && ProductOk(S, b, |s.durable.commits| + 1, t.product)
    requires CommitRecorded(S, s, b, t.product, s', end) && After(s', t)
    ensures CommitKept(S, s'.durable, s'.routing)
  {
    CommitKeeps(S, s.durable, b, l, t);
  }

  lemma {:induction false} ProductKept(S: Session, s: RunState, b: Boundary, l: Loop, t: Turn, s': RunState,
                                       end: NodeEnd)
    requires Due(S, s) && AtBoundary(S, s, b) && l.routing == s.routing && t.Ready?
    requires TurnRoutes(S, b, l, t) && ProductOk(S, b, |s.durable.commits| + 1, t.product)
    requires CommitRecorded(S, s, b, t.product, s', end) && After(s', t)
    ensures CommitKept(S, s'.durable, s'.routing)
  {
    BoundaryGives(S, s, b, t.product);
    DueProductKept(S, s, b, l, t, s', end);
  }

  lemma {:induction false} ProductPlaced(S: Session, s: RunState, b: Boundary, t: Turn, s': RunState, end: NodeEnd)
    requires Due(S, s) && AtBoundary(S, s, b) && t.Ready? && PassPending(S, s, t)
    requires CommitRecorded(S, s, b, t.product, s', end)
    requires s.rec.trace <= s'.rec.trace && t.l.rec.trace <= s'.rec.trace
    ensures CommitsPlaced(S, s'.rec.trace, s'.durable)
  {
    CommitIsPlaced(S, s, b, t, s');
  }

  lemma {:induction false} ProductOutcome(S: Session, s: RunState, b: Boundary, t: Turn, s': RunState, end: NodeEnd)
    requires Due(S, s) && AtBoundary(S, s, b) && t.Ready? && PassPending(S, s, t)
    requires CommitRecorded(S, s, b, t.product, s', end) && CommitKept(S, s'.durable, s'.routing)
    requires StepOk(S, s, s') && LineStops(S, s, s', end)
    requires s.rec.trace <= s'.rec.trace && t.l.rec.trace <= s'.rec.trace
    ensures NodeOutcome(S, s, s', end)
  {
    ProductPlaced(S, s, b, t, s', end);
    CommitOutcome(S, s, b, t, s', end);
  }

  lemma {:induction false} ReadyOutcome(S: Session, s: RunState, b: Boundary, r: Recorder, t: Turn)
    requires Due(S, s) && NodeOpen(S, s, b, r) && t.Ready?
    requires TurnsTaken(S, s, b, Loop(r, s.meter, s.routing, s.attempts, false), t)
    ensures NodeOutcome(S, s, FinishNode(S, b, s, t).0, FinishNode(S, b, s, t).1)
  {
    var l := Loop(r, s.meter, s.routing, s.attempts, false);
    ReadyTrace(S, s, b, r, t);
    var s', end := CommitProduct(S, s, b, t);
    ProductKept(S, s, b, l, t, s', end);
    AttemptsKeep(S, s, b, l, t, s');
    ProductOutcome(S, s, b, t, s', end);
  }

  /** One node from the invariant on. */
  lemma {:induction false} NodeKeepsInv(S: Session, s: RunState)
    requires Due(S, s)
    ensures var (s', end) := RunDue(S, s); NodeOutcome(S, s, s', end)
  {
    var b, r, pre := OpenNode(S, s);
    if pre == PrePassed {
      var t := TakeTurns(S, s, b, r);
      if t.Ready? {
        ReadyOutcome(S, s, b, r, t);
      } else {
        StopOutcome(S, s, b, r, t);
      }
    } else {
      PreStopOutcome(S, s, b, r, pre);
    }
  }
}
