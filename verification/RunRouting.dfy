/**
 * Routing inside a run: the contracts the runner writes are judged only by the target's
 * criteria and the confidence floor, so a retry leaves nothing recorded, every plan edge is
 * accepted at most once, and on an acyclic plan the loop guard never sees a recurrence.
 */
module RunRouting {
  import opened Core
  import opened Orders
  import opened Domain
  import opened Waves
  import opened Router
  import opened RunModel
  import opened CommitOrder

  // ---------------------------------------------------------------- runner-written contracts

  lemma {:induction false} NotBlank(s: string)
    requires s != "" && !IsSpace(s[0])
    ensures !Blank(s)
    decreases |s|
  {
    var t := TrimStart(s);
    assert t == s;
    TrimEndKeepsFirst(s);
  }

  lemma {:induction false} TrimEndKeepsFirst(s: string)
    requires s != "" && !IsSpace(s[0])
    ensures TrimEnd(s) != ""
    decreases |s|
  {
    if IsSpace(s[|s| - 1]) {
      TrimEndKeepsFirst(s[..|s| - 1]);
    }
  }

  /**
   * The judgment of a contract the runner writes: refused without retry when the target has
   * no criteria, retried below the floor, and otherwise let through with the soft
   * consequence of absent artifacts.
   */
  lemma {:induction false} RunnerContractJudgment(S: Session, from: NodeId, to: NodeId, stage: StageSpec,
                                                  out: Envelope, confidence: real)
    ensures var target := StageOf(S, to);
            Validate(BuildContract(S, from, to, stage, out, confidence), S.task, S.policy.minConfidence) ==
              if target.None? || target.value.doneCriteria == [] then RejectNoRetry("done_criteria")
              else if confidence < S.policy.minConfidence then BoundedRetry
              else PostGateFail("artifacts")
  {
    var goal := "handoff to `" + to.name + "`";
    assert goal[0] == 'h';
    NotBlank(goal);
  }

  // ---------------------------------------------------------------- routing all edges

  function EdgesOf(n: NodeId, succs: seq<NodeId>): (hs: seq<Handoff>)
    ensures |hs| == |succs|
  {
    seq(|succs|, i requires 0 <= i < |succs| => (n, succs[i]))
  }

  /** The contracts a fully accepted output leaves in its successors. */
  function RouteInto(S: Session, n: NodeId, stage: StageSpec, out: Envelope, confidence: real, succs: seq<NodeId>,
                     into: map<NodeId, HandoffContract>)
    : map<NodeId, HandoffContract>
  {
    if succs == [] then into
    else RouteInto(S, n, stage, out, confidence, succs[1..],
                   into[succs[0] := BuildContract(S, n, succs[0], stage, out, confidence)])
  }

  /** The guard is in step with the history and has not latched a recurrence. */
  ghost predicate GuardOk(S: Session, q: Routing) {
    Refines(S.policy, q.router.guard, q.accepted) && q.router.guard.halted != Some(REPETITIVE_HANDOFF)
  }

  /** No handoff of the history is on the pair of an edge from n into succs. */
  ghost predicate Unrelated(n: NodeId, succs: seq<NodeId>, history: seq<Handoff>) {
    forall i, j | 0 <= i < |history| && 0 <= j < |succs| :: !SamePair(history[i], n, succs[j])
  }

  ghost predicate NoPairTwice(n: NodeId, succs: seq<NodeId>) {
    Distinct(succs) && n !in succs
  }

  lemma {:induction false} UnrelatedStep(n: NodeId, succs: seq<NodeId>, history: seq<Handoff>)
    requires succs != [] && Unrelated(n, succs, history) && NoPairTwice(n, succs)
    ensures Unrelated(n, succs[1..], history + [(n, succs[0])]) && NoPairTwice(n, succs[1..])
  {
    var h := history + [(n, succs[0])];
    forall i, j | 0 <= i < |h| && 0 <= j < |succs[1..]| ensures !SamePair(h[i], n, succs[1..][j]) {
      assert succs[1..][j] == succs[j + 1];
      assert succs[0] != succs[j + 1];
    }
  }

  /** One edge: what the router answers to a contract of the runner. */
  lemma {:induction false} RouteOneEdge(S: Session, b: Boundary, out: Envelope, confidence: real, to: NodeId,
                                        q: Routing)
    requires GuardOk(S, q) && Unrelated(b.node, [to], q.accepted)
    ensures var c := BuildContract(S, b.node, to, b.stage, out, confidence);
            var (router', d) := Route(S.policy, S.task, q.router, c);
            && (d.Accept? ==> d.to == to && confidence >= S.policy.minConfidence
                              && GuardOk(S, Routing(router', q.routedIn[to := c], q.accepted + [(b.node, to)])))
            && (!d.Accept? ==> GuardOk(S, q.(router := router')))
            && (d.RetryBounded? ==> confidence < S.policy.minConfidence)
            && (d.Halt? ==> d.reason == MAX_HANDOFFS)
  {
    RunnerContractJudgment(S, b.node, to, b.stage, out, confidence);
    var c := BuildContract(S, b.node, to, b.stage, out, confidence);
    RouteRefines(S.policy, S.task, q.router, q.accepted, c);
    EvaluateRefines(S.policy, q.router.guard, q.accepted, b.node, to);
    assert forall i | 0 <= i < |q.accepted| :: !SamePair(q.accepted[i], b.node, [to][0]);
  }

  /** What routing all edges of a node does to the routing state. */
  ghost predicate RoutesTo(S: Session, b: Boundary, out: Envelope, confidence: real, succs: seq<NodeId>, q: Routing,
                           q': Routing, end: RouteEnd)
  {
    && GuardOk(S, q')
    && q'.accepted <= q.accepted + EdgesOf(b.node, succs)
    && (end == AllAccepted ==>
          && q'.accepted == q.accepted + EdgesOf(b.node, succs)
          && q'.routedIn == RouteInto(S, b.node, b.stage, out, confidence, succs, q.routedIn))
    && (end == RetryLater ==>
          q'.accepted == q.accepted && q'.routedIn == q.routedIn && confidence < S.policy.minConfidence)
    && (end.HaltedBy? ==> end.reason == MAX_HANDOFFS)
  }

  lemma {:induction false} EdgesOfCons(n: NodeId, succs: seq<NodeId>)
    requires succs != []
    ensures [(n, succs[0])] + EdgesOf(n, succs[1..]) == EdgesOf(n, succs)
  {
  }

  lemma {:induction false} RouteEdgesRoutes(S: Session, b: Boundary, out: Envelope, confidence: real,
                                            succs: seq<NodeId>, r: Recorder, q: Routing)
    requires GuardOk(S, q) && Unrelated(b.node, succs, q.accepted) && NoPairTwice(b.node, succs)
    ensures var (_, q', end) := RouteEdges(S, b, out, confidence, succs, r, q);
            RoutesTo(S, b, out, confidence, succs, q, q', end)
    decreases |succs|
  {
    if succs == [] {
      assert q.accepted + EdgesOf(b.node, succs) == q.accepted;
    } else {
      var to := succs[0];
      assert Unrelated(b.node, [to], q.accepted);
      RouteOneEdge(S, b, out, confidence, to, q);
      var c := BuildContract(S, b.node, to, b.stage, out, confidence);
      var r1 := Emit(r, HandoffRequest(b.node, S.world.contractHash(c)));
      var (router', d) := Route(S.policy, S.task, q.router, c);
      if d.Accept? {
        var q1 := Routing(router', q.routedIn[to := c], q.accepted + [(b.node, to)]);
        var r2 := Emit(r1, HandoffAccept(b.node, S.world.contractHash(c), to));
        UnrelatedStep(b.node, succs, q.accepted);
        RouteEdgesRoutes(S, b, out, confidence, succs[1..], r2, q1);
        EdgesOfCons(b.node, succs);
        assert q1.accepted + EdgesOf(b.node, succs[1..]) == q.accepted + EdgesOf(b.node, succs);
      }
    }
  }

  // ---------------------------------------------------------------- turns

  /** The node's edges are new to the guard. */
  ghost predicate FreshEdges(S: Session, n: NodeId, q: Routing) {
    GuardOk(S, q) && Unrelated(n, Sorted(Succs(S.g, n)), q.accepted) && NoPairTwice(n, Sorted(Succs(S.g, n)))
  }

  /** Apart from the router's retry counters nothing of the routing state changed. */
  ghost predicate NothingRouted(q: Routing, q': Routing) {
    q'.accepted == q.accepted && q'.routedIn == q.routedIn
  }

  /** The last call of the executor failed with the given reason. */
  ghost predicate LastCallFailed(calls: seq<ExecCall>, reason: ReasonCode) {
    calls != [] && calls[|calls| - 1].result == StageFailure(reason)
  }

  /** A halt is for the handoff cap, or has the reason that the last executor call reported. */
  ghost predicate HaltExplained(end: NodeEnd, calls: seq<ExecCall>) {
    end.NodeHalted? && end.reason != MAX_HANDOFFS ==> LastCallFailed(calls, end.reason)
  }

  ghost predicate TurnRoutes(S: Session, b: Boundary, l: Loop, t: Turn) {
    match t
    case Again(l') => GuardOk(S, l'.routing) && NothingRouted(l.routing, l'.routing)
    case Ready(l', p) =>
      && GuardOk(S, l'.routing)
      && l'.routing.accepted == l.routing.accepted + EdgesOf(b.node, Sorted(Succs(S.g, b.node)))
      && l'.routing.routedIn == RouteInto(S, b.node, b.stage, p.out, p.confidence, Sorted(Succs(S.g, b.node)),
                                          l.routing.routedIn)
    case Stop(l', end) =>
      && GuardOk(S, l'.routing)
      && l'.routing.accepted <= l.routing.accepted + EdgesOf(b.node, Sorted(Succs(S.g, b.node)))
      && HaltExplained(end, l'.rec.calls)
  }

  lemma {:induction false} RouteTurnRoutes(S: Session, b: Boundary, l: Loop, o: NodeOutput, out: Envelope,
                                           confidence: real)
    requires FreshEdges(S, b.node, l.routing)
    ensures TurnRoutes(S, b, l, RouteTurn(S, b, l, o, out, confidence))
  {
    RouteEdgesRoutes(S, b, out, confidence, Sorted(Succs(S.g, b.node)), l.rec, l.routing);
  }

  lemma {:induction false} JudgeTurnRoutes(S: Session, b: Boundary, l: Loop, attempt: nat, o: NodeOutput)
    requires FreshEdges(S, b.node, l.routing)
    ensures TurnRoutes(S, b, l, JudgeTurn(S, b, l, attempt, o))
  {
    var out := OutputEnvelope(S, b, o);
    var (r, failed) := PostGates(S, b, l.meter, attempt, PostRefs(b.stage), out, l.rec);
    if failed.None? {
      RouteTurnRoutes(S, b, l.(rec := r), o, out, Clamp(ConfidenceOf(o)));
    }
  }

  lemma {:induction false} BrokenCall(S: Session, b: Boundary, nextSeq: nat, attempt: nat, r: Recorder)
    ensures var got := Obtain(S, b, nextSeq, attempt, r); got.Broken? ==> LastCallFailed(got.rec.calls, got.reason)
  {
  }

  lemma {:induction false} BrokenTurnRoutes(S: Session, b: Boundary, l: Loop, attempt: nat, r: Recorder,
                                            reason: ReasonCode)
    requires GuardOk(S, l.routing) && LastCallFailed(r.calls, reason)
    ensures var l1 := l.(rec := r);
            TurnRoutes(S, b, l, RetryOr(S, b, l1, attempt, StopWith(b, l1, StopEscalate, NodeHalted(reason))))
  {
  }

  lemma {:induction false} TakeTurnRoutes(S: Session, b: Boundary, nextSeq: nat, l: Loop)
    requires FreshEdges(S, b.node, l.routing)
    ensures TurnRoutes(S, b, l, TakeTurn(S, b, nextSeq, l))
  {
    var (r, stop) := Poll(S, l.rec);
    var attempt := AttemptOf(l.attempts, b.node);
    BrokenCall(S, b, nextSeq, attempt, r);
    var got := Obtain(S, b, nextSeq, attempt, r);
    if got.Got? {
      var r1 := if got.output.Live? then Tick(got.rec) else got.rec;
      JudgeTurnRoutes(S, b, MeterTurn(S, b, l.(rec := r1), got.output), attempt, got.output);
    } else if got.Broken? {
      BrokenTurnRoutes(S, b, l, attempt, got.rec, got.reason);
    }
  }

  lemma {:induction false} AttemptsRoute(S: Session, b: Boundary, nextSeq: nat, l: Loop)
    requires FreshEdges(S, b.node, l.routing)
    ensures TurnRoutes(S, b, l, Attempts(S, b, nextSeq, l))
    decreases RetriesLeft(S, b.node, l)
  {
    var t := TakeTurn(S, b, nextSeq, l);
    TakeTurnRoutes(S, b, nextSeq, l);
    TurnsRunOut(S, b, nextSeq, l);
    if t.Again? {
      AttemptsRoute(S, b, nextSeq, t.l);
    }
  }

  // ---------------------------------------------------------------- the whole history

  /** The accepted handoffs of the first k nodes of an order: all their edges, in order. */
  function AcceptedUpTo(g: Digraph, order: seq<NodeId>): seq<Handoff> {
    if order == [] then [] else
      var n := order[|order| - 1];
      AcceptedUpTo(g, order[..|order| - 1]) + EdgesOf(n, Sorted(Succs(g, n)))
  }

  lemma {:induction false} AcceptedAreEdges(g: Digraph, order: seq<NodeId>, i: nat)
    requires i < |AcceptedUpTo(g, order)|
    ensures AcceptedUpTo(g, order)[i].0 in order
    ensures Edge(g, AcceptedUpTo(g, order)[i].0, AcceptedUpTo(g, order)[i].1)
    decreases |order|
  {
    var n := order[|order| - 1];
    var front := AcceptedUpTo(g, order[..|order| - 1]);
    if i < |front| {
      AcceptedAreEdges(g, order[..|order| - 1], i);
    } else {
      SortedSpec(Succs(g, n));
      assert Sorted(Succs(g, n))[i - |front|] in Sorted(Succs(g, n));
    }
  }

  /** On a plan in wave order the edges of the next node are new to the guard. */
  lemma {:induction false} NextEdgesAreFresh(g: Digraph, ws: seq<seq<NodeId>>, k: nat)
    requires Closed(g) && IsLevelling(g, {}, ws) && k < |Flatten(ws)|
    ensures var order := Flatten(ws);
            && Unrelated(order[k], Sorted(Succs(g, order[k])), AcceptedUpTo(g, order[..k]))
            && NoPairTwice(order[k], Sorted(Succs(g, order[k])))
  {
    var order := Flatten(ws);
    var n := order[k];
    var succs := Sorted(Succs(g, n));
    SortedSpec(Succs(g, n));
    var history := AcceptedUpTo(g, order[..k]);
    forall i, j | 0 <= i < |history| && 0 <= j < |succs| ensures !SamePair(history[i], n, succs[j]) {
      AcceptedAreEdges(g, order[..k], i);
      assert succs[j] in succs && Edge(g, n, succs[j]);
      NotSamePair(g, ws, k, history[i], succs[j]);
    }
    if n in succs {
      assert Edge(g, n, n);
      EdgesGoForward(g, ws, k, k);
    }
  }

  lemma {:induction false} NotSamePair(g: Digraph, ws: seq<seq<NodeId>>, k: nat, h: Handoff, to: NodeId)
    requires Closed(g) && IsLevelling(g, {}, ws) && k < |Flatten(ws)|
    requires h.0 in Flatten(ws)[..k] && Edge(g, h.0, h.1) && Edge(g, Flatten(ws)[k], to)
    ensures !SamePair(h, Flatten(ws)[k], to)
  {
    var order := Flatten(ws);
    var i :| 0 <= i < k && order[i] == h.0;
    OrderDistinct(g, ws, i, k);
    if h.0 == to && h.1 == order[k] {
      EdgesGoForward(g, ws, k, i);
    }
  }

  /** Every edge is accepted at most once, and never in both directions. */
  lemma {:induction false} AcceptedPairsDiffer(g: Digraph, ws: seq<seq<NodeId>>, k: nat, i: nat, j: nat)
    requires Closed(g) && IsLevelling(g, {}, ws) && k <= |Flatten(ws)|
    requires i < j < |AcceptedUpTo(g, Flatten(ws)[..k])|
    ensures var h := AcceptedUpTo(g, Flatten(ws)[..k]); !SamePair(h[i], h[j].0, h[j].1)
    decreases k
  {
    var order := Flatten(ws);
    var n := order[k - 1];
    var succs := Sorted(Succs(g, n));
    assert order[..k][..k - 1] == order[..k - 1];
    var front := AcceptedUpTo(g, order[..k - 1]);
    NextEdgesAreFresh(g, ws, k - 1);
    if j < |front| {
      AcceptedPairsDiffer(g, ws, k - 1, i, j);
    } else if i < |front| {
      assert !SamePair(front[i], n, succs[j - |front|]);
    } else {
      assert succs[i - |front|] != succs[j - |front|];
      assert succs[i - |front|] in succs && succs[j - |front|] in succs;
    }
  }
}
