/**
 * Runs under gates that pass and without interrupts: they go from node to node, and when
 * nothing else stands in the way either, only the handoff cap decides how they end.
 */
module RunUndisturbed {
  import opened Core
  import opened Orders
  import opened Domain
  import opened Waves
  import opened Router
  import opened Budget
  import opened RunModel
  import opened CommitOrder
  import opened RunTrace
  import opened RunRouting
  import opened RunDurable
  import opened RunInvariant
  import opened RunSteps
  import opened RunOutcomes

  // ---------------------------------------------------------------- from node to node

  /** Every gate passes and nothing interrupts. */
  ghost predicate Undisturbed(S: Session) {
    && (forall i :: !S.world.interrupted(i))
    && (forall i, run :: S.world.judge(i, run).verdict.Pass?)
  }

  lemma {:induction false} PreGatesPass(S: Session, b: Boundary, m: Meter, attempt: nat, refs: seq<GateRef>,
                                        r: Recorder)
    requires Undisturbed(S)
    ensures var (r', end) := PreGates(S, b, m, attempt, refs, r);
            end == PrePassed && r'.calls == r.calls && r'.exceededAt == r.exceededAt
    decreases |refs|
  {
    if refs != [] {
      var run := GateRun(refs[0], b.node, if refs[0] == G0_GATE then G0Phase else PrePhase, b.input, None, b.contract,
                         Snapshot(S.budget, m, b.stage.profile.role), attempt, b.grantor, None);
      PreGatesPass(S, b, m, attempt, refs[1..], AskGate(S, r, run).0);
    }
  }

  lemma {:induction false} PostGatesPass(S: Session, b: Boundary, m: Meter, attempt: nat, refs: seq<GateRef>,
                                         out: Envelope, r: Recorder)
    requires Undisturbed(S)
    ensures var (r', failed) := PostGates(S, b, m, attempt, refs, out, r);
            failed.None? && r'.calls == r.calls && r'.exceededAt == r.exceededAt
    decreases |refs|
  {
    if refs != [] {
      PostGatesPass(S, b, m, attempt, refs[1..], out, AskGate(S, r, PostRun(S, b, m, attempt, refs[0], out, None)).0);
    }
  }

  lemma {:induction false} FirstPollsGoOn(S: Session, r: Recorder, first: bool)
    requires Undisturbed(S)
    ensures var (r', stop) := PollBefore(S, r, first); !stop && r' == r.(clock := r'.clock)
  {
  }

  lemma {:induction false} NodeOpens(S: Session, s: RunState, n: NodeId, wave: nat) returns (b: Boundary, l: Loop)
    requires n in S.stages && Undisturbed(S)
    ensures b.node == n && b.stage == S.stages[n]
    ensures l == Loop(l.rec, s.meter, s.routing, s.attempts, false)
    ensures l.rec.calls == s.rec.calls && l.rec.exceededAt == s.rec.exceededAt
    ensures RunNode(S, s, n, wave) == FinishNode(S, b, s, Attempts(S, b, |s.durable.commits| + 1, l))
  {
    b := MakeBoundary(S, s, n, S.stages[n], wave);
    var r0 := Emit(s.rec, NodeStart(n, S.stages[n].profile.role, wave));
    PreGatesPass(S, b, s.meter, AttemptOf(s.attempts, n), PreRefs(S.stages[n]), r0);
    var (r, pre) := PreGates(S, b, s.meter, AttemptOf(s.attempts, n), PreRefs(S.stages[n]), r0);
    NodeUnfolded(S, s, n, wave, b, r, pre);
    l := Loop(r, s.meter, s.routing, s.attempts, false);
  }

  /** The wave loop after a node. */
  function AfterNode(S: Session, ran: (RunState, NodeEnd)): (RunState, Ending) {
    if ran.1 == Committed then RunFrom(S, ran.0) else (ran.0, EndingOf(ran.1))
  }

  /** An undisturbed run goes on with the node that is due. */
  lemma {:induction false} DueNodeRuns(S: Session, s: RunState, n: NodeId, wave: nat) returns (s0: RunState)
    requires |s.durable.commits| < |Order(S)| && n == NodeDue(S, s) && wave == WaveDue(S, s) && Undisturbed(S)
    ensures s0 == s.(rec := s.rec.(clock := s0.rec.clock))
    ensures RunFrom(S, s) == AfterNode(S, RunNode(S, s0, n, wave))
  {
    RunFromUnfolds(S, s);
    var first := WaveAt(S.waves, |s.durable.commits|).1;
    FirstPollsGoOn(S, s.rec, first);
    s0 := s.(rec := PollBefore(S, s.rec, first).0);
  }

  /** The due node of an undisturbed run comes to its attempts. */
  lemma {:induction false} DueNodeOpens(S: Session, s: RunState, n: NodeId) returns (s0: RunState, b: Boundary, l: Loop)
    requires |s.durable.commits| < |Order(S)| && n == NodeDue(S, s) && n in S.stages && Undisturbed(S)
    ensures s0 == s.(rec := s0.rec)
    ensures b.node == n && b.stage == S.stages[n]
    ensures l == Loop(l.rec, s.meter, s.routing, s.attempts, false)
    ensures l.rec.calls == s.rec.calls && l.rec.exceededAt == s.rec.exceededAt
    ensures RunFrom(S, s) == AfterNode(S, FinishNode(S, b, s0, Attempts(S, b, |s.durable.commits| + 1, l)))
  {
    var wave := WaveDue(S, s);
    s0 := DueNodeRuns(S, s, n, wave);
    b, l := NodeOpens(S, s0, n, wave);
  }

  // ---------------------------------------------------------------- nothing in the way

  ghost predicate NoSuspendLines(b: SessionBudget) {
    b.session.suspend.None? && b.team.suspend.None? && forall role | role in b.agents :: b.agents[role].suspend.None?
  }

  /**
   * Nothing in the plan, the policy, the budget or the replayed rows stops a node: every stage
   * with a predecessor has criteria, no suspend line is set, and replayed rows belong to their
   * nodes and reach the confidence floor.
   */
  ghost predicate ClearWay(S: Session) {
    && (forall u, v | Edge(S.g, u, v) :: v in S.stages && S.stages[v].doneCriteria != [])
    && NoSuspendLines(S.budget)
    && (forall k: nat | CachedRow(S, k).Some? :: Clamp(CachedRow(S, k).value.confidence) >= S.policy.minConfidence)
    && !SomeForeignRow(S)
  }

  ghost predicate NoViolations(S: Session) {
    forall i, hash :: !S.world.violates(i, hash)
  }

  /** The executor always reports, and at or above the confidence floor. */
  ghost predicate Obliging(S: Session) {
    forall i, request ::
      var result := S.world.execute(i, request);
      result.Finished? && Clamp(result.report.confidence) >= S.policy.minConfidence
  }

  /** There is an output for commit k: a replayed row, or whatever the executor is asked. */
  ghost predicate Delivers(S: Session, k: nat) {
    CachedRow(S, k).Some? || Obliging(S)
  }

  // ---------------------------------------------------------------- one node

  ghost predicate Welcoming(S: Session, succs: seq<NodeId>) {
    forall v | v in succs :: v in S.stages && S.stages[v].doneCriteria != []
  }

  /** The handoff cap leaves room for n more. */
  predicate RoomFor(S: Session, q: Routing, n: nat) {
    |q.accepted| + n <= S.policy.maxHandoffs
  }

  /** A handoff to a stage with criteria is accepted while the cap lasts. */
  lemma {:induction false} HandoffMeetsCap(S: Session, b: Boundary, out: Envelope, confidence: real, to: NodeId,
                                           q: Routing)
    requires GuardOk(S, q) && Unrelated(b.node, [to], q.accepted) && Welcoming(S, [to])
    requires confidence >= S.policy.minConfidence
    ensures var (_, d) := Route(S.policy, S.task, q.router, BuildContract(S, b.node, to, b.stage, out, confidence));
            d == if RoomFor(S, q, 1) then Accept(to) else Halt(MAX_HANDOFFS)
  {
    RunnerContractJudgment(S, b.node, to, b.stage, out, confidence);
    EvaluateRefines(S.policy, q.router.guard, q.accepted, b.node, to);
    assert to in [to];
    assert forall i | 0 <= i < |q.accepted| :: !SamePair(q.accepted[i], b.node, [to][0]);
  }

  lemma {:induction false} EdgesMeetCap(S: Session, b: Boundary, out: Envelope, confidence: real, succs: seq<NodeId>,
                                        r: Recorder, q: Routing)
    requires GuardOk(S, q) && Unrelated(b.node, succs, q.accepted) && NoPairTwice(b.node, succs)
    requires Welcoming(S, succs) && confidence >= S.policy.minConfidence
    ensures RouteEdges(S, b, out, confidence, succs, r, q).2
            == if RoomFor(S, q, |succs|) then AllAccepted else HaltedBy(MAX_HANDOFFS)
    decreases |succs|
  {
    if succs == [] {
      assert |q.accepted| <= S.policy.maxHandoffs;
    } else {
      var to := succs[0];
      assert Unrelated(b.node, [to], q.accepted);
      HandoffMeetsCap(S, b, out, confidence, to, q);
      RouteOneEdge(S, b, out, confidence, to, q);
      var c := BuildContract(S, b.node, to, b.stage, out, confidence);
      var r1 := Emit(r, HandoffRequest(b.node, S.world.contractHash(c)));
      var (router', d) := Route(S.policy, S.task, q.router, c);
      if d.Accept? {
        UnrelatedStep(b.node, succs, q.accepted);
        EdgesMeetCap(S, b, out, confidence, succs[1..], Emit(r1, HandoffAccept(b.node, S.world.contractHash(c), to)),
                     Routing(router', q.routedIn[to := c], q.accepted + [(b.node, to)]));
      }
    }
  }

  /** An attempt that ends as the handoff cap decides. */
  ghost predicate MeetsCap(S: Session, n: NodeId, q: Routing, t: Turn) {
    if RoomFor(S, q, |Sorted(Succs(S.g, n))|) then t.Ready? else t.Stop? && t.end == NodeHalted(MAX_HANDOFFS)
  }

  lemma {:induction false} JudgedMeetsCap(S: Session, b: Boundary, l: Loop, attempt: nat, o: NodeOutput)
    requires Undisturbed(S) && FreshEdges(S, b.node, l.routing) && Welcoming(S, Sorted(Succs(S.g, b.node)))
    requires Clamp(ConfidenceOf(o)) >= S.policy.minConfidence
    ensures MeetsCap(S, b.node, l.routing, JudgeTurn(S, b, l, attempt, o))
  {
    var out := OutputEnvelope(S, b, o);
    PostGatesPass(S, b, l.meter, attempt, PostRefs(b.stage), out, l.rec);
    var (r, failed) := PostGates(S, b, l.meter, attempt, PostRefs(b.stage), out, l.rec);
    EdgesMeetCap(S, b, out, Clamp(ConfidenceOf(o)), Sorted(Succs(S.g, b.node)), r, l.routing);
  }

  /** An attempt whose output is there goes on to the post-gates. */
  lemma {:induction false} DeliveredTurn(S: Session, b: Boundary, nextSeq: nat, l: Loop)
    returns (l1: Loop, o: NodeOutput)
    requires Undisturbed(S) && NoViolations(S) && Delivers(S, nextSeq)
    requires CachedRow(S, nextSeq).Some? ==>
               && CachedRow(S, nextSeq).value.envelope.from == b.node
               && Clamp(CachedRow(S, nextSeq).value.confidence) >= S.policy.minConfidence
    ensures Clamp(ConfidenceOf(o)) >= S.policy.minConfidence && l1 == l.(rec := l1.rec)
    ensures TakeTurn(S, b, nextSeq, l) == JudgeTurn(S, b, MeterTurn(S, b, l1, o), AttemptOf(l.attempts, b.node), o)
  {
    var (r, stop) := Poll(S, l.rec);
    var got := Obtain(S, b, nextSeq, AttemptOf(l.attempts, b.node), r);
    o := got.output;
    l1 := l.(rec := if o.Live? then Tick(got.rec) else got.rec);
  }

  /** A node whose output is there has done its attempts after the first. */
  lemma {:induction false} AttemptsMeetCap(S: Session, b: Boundary, nextSeq: nat, l: Loop)
    requires Undisturbed(S) && NoViolations(S) && Delivers(S, nextSeq)
    requires CachedRow(S, nextSeq).Some? ==>
               && CachedRow(S, nextSeq).value.envelope.from == b.node
               && Clamp(CachedRow(S, nextSeq).value.confidence) >= S.policy.minConfidence
    requires FreshEdges(S, b.node, l.routing) && Welcoming(S, Sorted(Succs(S.g, b.node)))
    ensures MeetsCap(S, b.node, l.routing, Attempts(S, b, nextSeq, l))
  {
    var l1, o := DeliveredTurn(S, b, nextSeq, l);
    var _ := MeterTurnParts(S, b, l1, o);
    JudgedMeetsCap(S, b, MeterTurn(S, b, l1, o), AttemptOf(l.attempts, b.node), o);
  }

  /** Without suspend lines a commit is never the last. */
  lemma {:induction false} FreeCommit(S: Session, b: Boundary, s: RunState, l: Loop, p: Product)
    requires NoSuspendLines(S.budget) && InOrder(S, s.durable, b.node)
    ensures CommitNode(S, b, s, l, p).1 == Committed
  {
  }

  lemma {:induction false} NodeMeetsCap(S: Session, b: Boundary, s: RunState, t: Turn, q: Routing)
    requires MeetsCap(S, b.node, q, t) && NoSuspendLines(S.budget) && InOrder(S, s.durable, b.node)
    ensures FinishNode(S, b, s, t).1
            == if RoomFor(S, q, |Sorted(Succs(S.g, b.node))|) then Committed else NodeHalted(MAX_HANDOFFS)
  {
    if t.Ready? {
      FreeCommit(S, b, s, t.l, t.product);
    }
  }

  /** What the invariant and a clear way give for the node n that is due as commit k. */
  ghost predicate NodeClear(S: Session, n: NodeId, k: nat, d: Durable, q: Routing) {
    && k == |d.commits| + 1 && n in S.stages && InOrder(S, d, n)
    && FreshEdges(S, n, q) && Welcoming(S, Sorted(Succs(S.g, n)))
    && (CachedRow(S, k).Some? ==>
          && CachedRow(S, k).value.envelope.from == n
          && Clamp(CachedRow(S, k).value.confidence) >= S.policy.minConfidence)
  }

  lemma {:induction false} DueIsClear(S: Session, s: RunState)
    requires Due(S, s) && ClearWay(S)
    ensures NodeClear(S, NodeDue(S, s), |s.durable.commits| + 1, s.durable, s.routing)
  {
    var n := NodeDue(S, s);
    AtDueBoundary(S, s);
    EdgesDueAreFresh(S, s);
    SortedSpec(Succs(S.g, n));
    forall v | v in Sorted(Succs(S.g, n)) ensures v in S.stages && S.stages[v].doneCriteria != [] {
      assert Edge(S.g, n, v);
    }
  }

  /** The end of a node on a clear way. */
  function CapEnd(S: Session, n: NodeId, q: Routing): NodeEnd {
    if RoomFor(S, q, |Sorted(Succs(S.g, n))|) then Committed else NodeHalted(MAX_HANDOFFS)
  }

  lemma {:induction false} ClearNodeMeetsCap(S: Session, s: RunState, n: NodeId, wave: nat, k: nat)
    requires NodeClear(S, n, k, s.durable, s.routing)
    requires Undisturbed(S) && NoViolations(S) && Delivers(S, k) && NoSuspendLines(S.budget)
    ensures RunNode(S, s, n, wave).1 == CapEnd(S, n, s.routing)
  {
    var b, l := NodeOpens(S, s, n, wave);
    AttemptsMeetCap(S, b, k, l);
    NodeMeetsCap(S, b, s, Attempts(S, b, k, l), l.routing);
  }

  lemma {:induction false} ClockKeepsInv(S: Session, s: RunState, s0: RunState)
    requires Inv(S, s) && s0 == s.(rec := s.rec.(clock := s0.rec.clock))
    ensures Inv(S, s0)
  {
  }

  // ---------------------------------------------------------------- from commit to commit

  /** The handoffs of the first k nodes: one for each of their edges. */
  function HandoffsUpTo(S: Session, k: nat): nat
    requires k <= |Order(S)|
  {
    |AcceptedUpTo(S.g, Order(S)[..k])|
  }

  lemma {:induction false} HandoffsNext(S: Session, k: nat)
    requires k < |Order(S)|
    ensures HandoffsUpTo(S, k + 1) == HandoffsUpTo(S, k) + |Sorted(Succs(S.g, Order(S)[k]))|
  {
    AcceptedNext(S, k);
  }

  lemma {:induction false} DueHasRoom(S: Session, q: Routing, d: Durable)
    requires DurableOk(S, d) && RoutingOk(S, q, d) && |d.commits| < |Order(S)|
    ensures CapEnd(S, Order(S)[|d.commits|], q)
            == if HandoffsUpTo(S, |d.commits| + 1) <= S.policy.maxHandoffs then Committed else NodeHalted(MAX_HANDOFFS)
  {
    HandoffsNext(S, |d.commits|);
  }

  lemma {:induction false} OneMoreCommit(S: Session, s0: RunState, s1: RunState)
    requires NodeOutcome(S, s0, s1, Committed)
    ensures Inv(S, s1) && |s1.durable.commits| == |s0.durable.commits| + 1
  {
  }

  /** The due node of an undisturbed run on a clear way, with its end. */
  lemma {:induction false} DueNodeEnds(S: Session, s: RunState) returns (s1: RunState, end: NodeEnd)
    requires Due(S, s) && ClearWay(S) && Undisturbed(S) && NoViolations(S) && Delivers(S, |s.durable.commits| + 1)
    ensures end == CapEnd(S, NodeDue(S, s), s.routing) && RunFrom(S, s) == AfterNode(S, (s1, end))
    ensures end == Committed ==> Inv(S, s1) && |s1.durable.commits| == |s.durable.commits| + 1
  {
    var n, wave := NodeDue(S, s), WaveDue(S, s);
    DueIsClear(S, s);
    var s0 := DueNodeRuns(S, s, n, wave);
    ClearNodeMeetsCap(S, s0, n, wave, |s.durable.commits| + 1);
    ClockKeepsInv(S, s, s0);
    s1, end := NodeUnfolds(S, s0);
    if end == Committed {
      OneMoreCommit(S, s0, s1);
    }
  }

  lemma {:induction false} AfterCapEnd(S: Session, ran: (RunState, NodeEnd), fits: bool, rest: (RunState, Ending))
    requires rest == AfterNode(S, ran) && ran.1 == if fits then Committed else NodeHalted(MAX_HANDOFFS)
    ensures fits ==> rest == RunFrom(S, ran.0)
    ensures !fits ==> rest.1 == Ended(Halted, Some(MAX_HANDOFFS))
  {
  }

  /** The due node commits while the cap has room for its edges, and otherwise halts the run for the cap. */
  lemma {:induction false} DueNodeMeetsCap(S: Session, s: RunState) returns (s1: RunState)
    requires Due(S, s) && ClearWay(S) && Undisturbed(S) && NoViolations(S) && Delivers(S, |s.durable.commits| + 1)
    ensures HandoffsUpTo(S, |s.durable.commits| + 1) <= S.policy.maxHandoffs ==>
              Inv(S, s1) && |s1.durable.commits| == |s.durable.commits| + 1 && RunFrom(S, s) == RunFrom(S, s1)
    ensures HandoffsUpTo(S, |s.durable.commits| + 1) > S.policy.maxHandoffs ==>
              RunFrom(S, s).1 == Ended(Halted, Some(MAX_HANDOFFS))
  {
    DueHasRoom(S, s.routing, s.durable);
    var end;
    s1, end := DueNodeEnds(S, s);
    AfterCapEnd(S, (s1, end), HandoffsUpTo(S, |s.durable.commits| + 1) <= S.policy.maxHandoffs, RunFrom(S, s));
  }

  /** There is an output for each of the next commits up to commit k. */
  ghost predicate DeliversUpTo(S: Session, s: RunState, k: nat) {
    forall j | |s.durable.commits| < j <= k :: Delivers(S, j)
  }

  lemma {:induction false} HandoffsGrow(S: Session, i: nat, k: nat)
    requires i <= k <= |Order(S)|
    ensures HandoffsUpTo(S, i) <= HandoffsUpTo(S, k)
    decreases k
  {
    if i < k {
      HandoffsGrow(S, i, k - 1);
      HandoffsNext(S, k - 1);
    }
  }

  /** While there are outputs and the cap has room, an undisturbed run on a clear way commits node after node. */
  lemma {:induction false} RunsUpTo(S: Session, s: RunState, k: nat) returns (s': RunState)
    requires Inv(S, s) && |s.durable.commits| <= k <= |Order(S)|
    requires ClearWay(S) && Undisturbed(S) && NoViolations(S) && DeliversUpTo(S, s, k)
    requires HandoffsUpTo(S, k) <= S.policy.maxHandoffs
    ensures Inv(S, s') && |s'.durable.commits| == k && RunFrom(S, s) == RunFrom(S, s')
    decreases k - |s.durable.commits|
  {
    s' := s;
    if |s.durable.commits| < k {
      HandoffsGrow(S, |s.durable.commits| + 1, k);
      var s1 := DueNodeMeetsCap(S, s);
      s' := RunsUpTo(S, s1, k);
    }
  }

  /** The last place up to which the values stay within the cap. */
  lemma {:induction false} LastWithin(h: nat -> nat, cap: nat, i: nat, n: nat) returns (k: nat)
    requires i <= n && h(i) <= cap < h(n)
    ensures i <= k < n && h(k) <= cap < h(k + 1)
    decreases n - i
  {
    k := i;
    if h(i + 1) <= cap {
      k := LastWithin(h, cap, i + 1, n);
    }
  }

  lemma {:induction false} LastFit(S: Session, i: nat) returns (k: nat)
    requires i <= |Order(S)| && HandoffsUpTo(S, i) <= S.policy.maxHandoffs < HandoffsUpTo(S, |Order(S)|)
    ensures i <= k < |Order(S)| && HandoffsUpTo(S, k) <= S.policy.maxHandoffs < HandoffsUpTo(S, k + 1)
  {
    var h := (j: nat) => if j <= |Order(S)| then HandoffsUpTo(S, j) else 0;
    k := LastWithin(h, S.policy.maxHandoffs, i, |Order(S)|);
  }

  lemma {:induction false} AllCommitted(S: Session, s: RunState)
    requires DurableOk(S, s.durable) && |s.durable.commits| == |Order(S)|
    ensures RunFrom(S, s) == (s, Ended(Completed, None)) && s.durable.commits == Order(S)
  {
    assert Order(S)[..|Order(S)|] == Order(S);
  }

  /**
   * The executor is called for commit k + 1: all commits before are replayed from rows on a
   * clear way that fits the cap, or there are none before.
   */
  ghost predicate LivePlace(S: Session, k: nat) {
    && k < |Order(S)| && CachedRow(S, k + 1).None?
    && (forall j | 1 <= j <= k :: CachedRow(S, j).Some?)
    && (k > 0 ==> ClearWay(S) && HandoffsUpTo(S, k) <= S.policy.maxHandoffs)
  }

  /** The way does not depend on the world. */
  lemma {:induction false} SameWay(S: Session, w: World)
    ensures ClearWay(S.(world := w)) <==> ClearWay(S)
  {
    var T := S.(world := w);
    assert forall k: nat :: CachedRow(T, k) == CachedRow(S, k);
    assert Order(T) == Order(S);
  }

  lemma {:induction false} SamePlace(S: Session, w: World, k: nat)
    requires LivePlace(S, k)
    ensures LivePlace(S.(world := w), k)
  {
    SameWay(S, w);
    var T := S.(world := w);
    assert forall j: nat :: CachedRow(T, j) == CachedRow(S, j);
    assert Order(T) == Order(S);
  }

  /** The run up to a live place. */
  lemma {:induction false} RunsToPlace(S: Session, k: nat) returns (s: RunState)
    requires Compiled(S) && Undisturbed(S) && NoViolations(S) && LivePlace(S, k)
    ensures Inv(S, s) && |s.durable.commits| == k && RunFrom(S, InitState(S)) == RunFrom(S, s)
  {
    InitInv(S);
    s := InitState(S);
    if k > 0 {
      s := RunsUpTo(S, s, k);
    }
  }

  /** A cap with room for all handoffs lets all nodes commit. */
  lemma {:induction false} AllCommit(S: Session, s: RunState) returns (s1: RunState)
    requires Inv(S, s) && ClearWay(S) && Undisturbed(S) && NoViolations(S) && DeliversUpTo(S, s, |Order(S)|)
    requires HandoffsUpTo(S, |Order(S)|) <= S.policy.maxHandoffs
    ensures Inv(S, s1) && s1.durable.commits == Order(S) && RunFrom(S, s) == (s1, Ended(Completed, None))
  {
    s1 := RunsUpTo(S, s, |Order(S)|);
    AllCommitted(S, s1);
  }

  /** The place whose handoffs pass the cap: there are outputs up to it. */
  lemma {:induction false} CapPlace(S: Session, s: RunState) returns (k: nat)
    requires |s.durable.commits| <= |Order(S)| && DeliversUpTo(S, s, |Order(S)|)
    requires HandoffsUpTo(S, |s.durable.commits|) <= S.policy.maxHandoffs < HandoffsUpTo(S, |Order(S)|)
    ensures |s.durable.commits| <= k < |Order(S)| && DeliversUpTo(S, s, k) && Delivers(S, k + 1)
    ensures HandoffsUpTo(S, k) <= S.policy.maxHandoffs < HandoffsUpTo(S, k + 1)
  {
    k := LastFit(S, |s.durable.commits|);
  }

  /** The run comes to the node whose handoffs pass the cap. */
  lemma {:induction false} RunsToCap(S: Session, s: RunState, k: nat) returns (s1: RunState)
    requires Inv(S, s) && ClearWay(S) && Undisturbed(S) && NoViolations(S) && DeliversUpTo(S, s, k)
    requires |s.durable.commits| <= k < |Order(S)| && HandoffsUpTo(S, k) <= S.policy.maxHandoffs
    ensures RunFrom(S, s) == RunFrom(S, s1) && Due(S, s1) && |s1.durable.commits| == k
  {
    s1 := RunsUpTo(S, s, k);
  }

  lemma {:induction false} CapAtNode(S: Session, s: RunState)
    requires Due(S, s) && ClearWay(S) && Undisturbed(S) && NoViolations(S) && Delivers(S, |s.durable.commits| + 1)
    requires HandoffsUpTo(S, |s.durable.commits| + 1) > S.policy.maxHandoffs
    ensures RunFrom(S, s).1 == Ended(Halted, Some(MAX_HANDOFFS))
  {
    var _ := DueNodeMeetsCap(S, s);
  }

  lemma {:induction false} CapAt(S: Session, s: RunState, k: nat)
    requires Inv(S, s) && ClearWay(S) && Undisturbed(S) && NoViolations(S) && DeliversUpTo(S, s, k)
             && Delivers(S, k + 1)
    requires |s.durable.commits| <= k < |Order(S)|
    requires HandoffsUpTo(S, k) <= S.policy.maxHandoffs < HandoffsUpTo(S, k + 1)
    ensures RunFrom(S, s).1 == Ended(Halted, Some(MAX_HANDOFFS))
  {
    var s1 := RunsToCap(S, s, k);
    CapAtNode(S, s1);
  }

  lemma {:induction false} CapReached(S: Session, s: RunState)
    requires Inv(S, s) && ClearWay(S) && Undisturbed(S) && NoViolations(S) && DeliversUpTo(S, s, |Order(S)|)
    requires HandoffsUpTo(S, |s.durable.commits|) <= S.policy.maxHandoffs < HandoffsUpTo(S, |Order(S)|)
    ensures RunFrom(S, s).1 == Ended(Halted, Some(MAX_HANDOFFS))
  {
    var k := CapPlace(S, s);
    CapAt(S, s, k);
  }

  // ---------------------------------------------------------------- the edges of the plan

  function PlanEdges(g: Digraph): set<Handoff> {
    set u, v | u in g.succs && v in g.succs[u] :: (u, v)
  }

  lemma {:induction false} EdgesListed(g: Digraph, order: seq<NodeId>, n: NodeId, v: NodeId)
    requires n in order && Edge(g, n, v)
    ensures (n, v) in AcceptedUpTo(g, order)
    decreases |order|
  {
    var front, last := order[..|order| - 1], order[|order| - 1];
    if n == last {
      var succs := Sorted(Succs(g, n));
      SortedSpec(Succs(g, n));
      var i :| 0 <= i < |succs| && succs[i] == v;
      assert EdgesOf(n, succs)[i] == (n, v);
    } else {
      EdgesListed(g, front, n, v);
    }
  }

  /** A run with all its handoffs accepted has one for each edge of the plan. */
  lemma {:induction false} AllEdgesAccepted(g: Digraph, ws: seq<seq<NodeId>>)
    requires Closed(g) && IsLevelling(g, {}, ws)
    ensures SetOf(AcceptedUpTo(g, Flatten(ws))) == PlanEdges(g)
    ensures |AcceptedUpTo(g, Flatten(ws))| == |PlanEdges(g)|
  {
    var order := Flatten(ws);
    var all := AcceptedUpTo(g, order);
    forall h | h in all ensures h in PlanEdges(g) {
      var i :| 0 <= i < |all| && all[i] == h;
      AcceptedAreEdges(g, order, i);
    }
    forall h | h in PlanEdges(g) ensures h in all {
      assert Edge(g, h.0, h.1);
      var m := OrderMember(g, ws, h.0);
      EdgesListed(g, order, h.0, h.1);
    }
    assert order[..|order|] == order;
    forall i, j | 0 <= i < j < |all| ensures all[i] != all[j] {
      AcceptedPairsDiffer(g, ws, |order|, i, j);
    }
    DistinctSize(all);
  }

  /**
   * With gates that pass, no interrupts, reports at or above the confidence floor, criteria
   * on every stage with a predecessor and no suspend line, the handoff cap alone decides: a
   * plan with at most as many edges as the cap completes with every node committed, and any
   * other halts for the cap.
   */
  lemma {:induction false} HandoffCapDecides(S: Session)
    requires Compiled(S) && ClearWay(S) && Undisturbed(S) && NoViolations(S) && Obliging(S)
    ensures var (s, e) := Run(S);
            if |PlanEdges(S.g)| <= S.policy.maxHandoffs
            then e == Ended(Completed, None) && s.durable.commits == Order(S)
            else e == Ended(Halted, Some(MAX_HANDOFFS))
  {
    InitInv(S);
    AllEdgesAccepted(S.g, S.waves);
    assert Order(S)[..|Order(S)|] == Order(S);
    if |PlanEdges(S.g)| <= S.policy.maxHandoffs {
      var s1 := AllCommit(S, InitState(S));
    } else {
      CapReached(S, InitState(S));
    }
  }
}
