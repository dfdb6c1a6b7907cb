/**
 * The concerns a run reports: the nodes that were done, but only after a retry.
 */
module RunConcerns {
  import opened Core
  import opened Domain
  import opened RunModel
  import opened CommitOrder
  import opened RunTrace
  import opened RunDurable
  import opened RunEffects
  import opened RunInvariant
  import opened RunSteps
  import opened RunOutcomes

  /** The nodes that were stopped as done, in order. */
  function DoneNodes(es: seq<Event>): seq<NodeId> {
    if es == [] then [] else
      var e := es[|es| - 1];
      DoneNodes(es[..|es| - 1]) + if e.NodeStop? && e.stopKind == StopDone then [e.node] else []
  }

  lemma {:induction false} DoneNodesSnoc(es: seq<Event>, e: Event)
    ensures DoneNodes(es + [e]) == DoneNodes(es) + if e.NodeStop? && e.stopKind == StopDone then [e.node] else []
  {
    assert (es + [e])[..|es|] == es;
  }

  function DoneOf(bs: seq<Block>): seq<NodeId> {
    if bs == [] then [] else
      DoneOf(bs[..|bs| - 1]) + if bs[|bs| - 1].kind == StopDone then [bs[|bs| - 1].node] else []
  }

  lemma {:induction false} DoneOfSnoc(bs: seq<Block>, b: Block)
    ensures DoneOf(bs + [b]) == DoneOf(bs) + if b.kind == StopDone then [b.node] else []
  {
    assert (bs + [b])[..|bs|] == bs;
  }

  /** The done nodes are those of the done blocks. */
  lemma {:induction false} DoneNodesOfBlocks(es: seq<Event>)
    ensures match Parse(es)
            case Nothing => DoneNodes(es) == []
            case Opened => DoneNodes(es) == []
            case Between(bs) => DoneNodes(es) == DoneOf(bs)
            case Inside(bs, _, _) => DoneNodes(es) == DoneOf(bs)
            case Concluded(bs) => DoneNodes(es) == DoneOf(bs)
            case Sealed(bs) => DoneNodes(es) == DoneOf(bs)
            case Foreign => true
    decreases |es|
  {
    if es != [] {
      var e, p := es[|es| - 1], Parse(es[..|es| - 1]);
      DoneNodesOfBlocks(es[..|es| - 1]);
      if p.Inside? && e.NodeStop? {
        DoneOfSnoc(p.blocks, Block(p.node, p.wave, e.stopKind));
      }
    }
  }

  lemma {:induction false} DoneBlocksDone(S: Session, k: nat)
    requires k <= |Order(S)|
    ensures DoneOf(DoneBlocks(S, k)) == Order(S)[..k]
    decreases k
  {
    if k > 0 {
      DoneBlocksDone(S, k - 1);
      assert DoneBlocks(S, k)[..k - 1] == DoneBlocks(S, k - 1);
      assert Order(S)[..k] == Order(S)[..k - 1] + [Order(S)[k - 1]];
    }
  }

  // ---------------------------------------------------------------- counting

  predicate WasRetried(attempts: map<NodeId, nat>, n: NodeId) {
    AttemptOf(attempts, n) > 0
  }

  /** How many of these nodes were retried. */
  function Retried(ns: seq<NodeId>, attempts: map<NodeId, nat>): nat {
    if ns == [] then 0
    else Retried(ns[..|ns| - 1], attempts) + if WasRetried(attempts, ns[|ns| - 1]) then 1 else 0
  }

  lemma {:induction false} RetriedSnoc(ns: seq<NodeId>, n: NodeId, attempts: map<NodeId, nat>)
    ensures Retried(ns + [n], attempts) == Retried(ns, attempts) + if WasRetried(attempts, n) then 1 else 0
  {
    assert (ns + [n])[..|ns|] == ns;
  }

  /** Retries of another node change nothing. */
  lemma {:induction false} RetriedStays(ns: seq<NodeId>, attempts: map<NodeId, nat>, attempts': map<NodeId, nat>,
                                        n: NodeId)
    requires n !in ns && attempts' - {n} == attempts - {n}
    ensures Retried(ns, attempts') == Retried(ns, attempts)
    decreases |ns|
  {
    if ns != [] {
      RetriedStays(ns[..|ns| - 1], attempts, attempts', n);
      var m := ns[|ns| - 1];
      assert m in attempts' <==> m in attempts' - {n};
      assert m in attempts <==> m in attempts - {n};
      assert m in attempts ==> (attempts' - {n})[m] == (attempts - {n})[m];
    }
  }

  // ---------------------------------------------------------------- one node

  /** The retry flag of the attempts says whether the node was retried. */
  ghost predicate Flagged(n: NodeId, l: Loop) {
    l.retried <==> WasRetried(l.attempts, n)
  }

  lemma {:induction false} RouteTurnFlagged(S: Session, b: Boundary, l: Loop, o: NodeOutput, out: Envelope,
                                            confidence: real)
    requires Flagged(b.node, l)
    ensures Flagged(b.node, RouteTurn(S, b, l, o, out, confidence).l)
  {
  }

  lemma {:induction false} JudgeTurnFlagged(S: Session, b: Boundary, l: Loop, attempt: nat, o: NodeOutput)
    requires Flagged(b.node, l)
    ensures Flagged(b.node, JudgeTurn(S, b, l, attempt, o).l)
  {
    var out := OutputEnvelope(S, b, o);
    var (r, failed) := PostGates(S, b, l.meter, attempt, PostRefs(b.stage), out, l.rec);
    RouteTurnFlagged(S, b, l.(rec := r), o, out, Clamp(ConfidenceOf(o)));
  }

  lemma {:induction false} MeterTurnFlagged(S: Session, b: Boundary, l: Loop, r: Recorder, o: NodeOutput)
    requires Flagged(b.node, l)
    ensures Flagged(b.node, MeterTurn(S, b, l.(rec := r), o))
  {
  }

  lemma {:induction false} TurnFlagged(S: Session, b: Boundary, nextSeq: nat, l: Loop)
    requires Flagged(b.node, l)
    ensures Flagged(b.node, TakeTurn(S, b, nextSeq, l).l)
  {
    var (r, stop) := Poll(S, l.rec);
    var attempt := AttemptOf(l.attempts, b.node);
    var got := Obtain(S, b, nextSeq, attempt, r);
    if !stop && got.Got? {
      var o := got.output;
      var l1 := l.(rec := if o.Live? then Tick(got.rec) else got.rec);
      MeterTurnFlagged(S, b, l, l1.rec, o);
      JudgeTurnFlagged(S, b, MeterTurn(S, b, l1, o), attempt, o);
    }
  }

  lemma {:induction false} AttemptsFlagged(S: Session, b: Boundary, nextSeq: nat, l: Loop)
    requires Flagged(b.node, l)
    ensures Flagged(b.node, Attempts(S, b, nextSeq, l).l)
    decreases RetriesLeft(S, b.node, l)
  {
    var t := TakeTurn(S, b, nextSeq, l);
    TurnFlagged(S, b, nextSeq, l);
    TurnsRunOut(S, b, nextSeq, l);
    if t.Again? {
      AttemptsFlagged(S, b, nextSeq, t.l);
    }
  }

  /** What a node adds to the concerns. */
  ghost predicate NodeTallied(n: NodeId, s: RunState, s': RunState, end: NodeEnd) {
    && s'.attempts - {n} == s.attempts - {n}
    && s'.concerns == s.concerns + if end == Committed && WasRetried(s'.attempts, n) then 1 else 0
  }

  lemma {:induction false} FinishTallied(S: Session, b: Boundary, s: RunState, t: Turn)
    requires Flagged(b.node, t.l) && t.l.attempts - {b.node} == s.attempts - {b.node}
    requires !t.Again? && (t.Stop? ==> t.end != Committed)
    ensures var (s', end) := FinishNode(S, b, s, t); NodeTallied(b.node, s, s', end)
  {
  }

  lemma {:induction false} NodeIsTallied(S: Session, s: RunState, n: NodeId, wave: nat)
    requires n in S.stages && AttemptOf(s.attempts, n) == 0
    ensures var (s', end) := RunNode(S, s, n, wave); NodeTallied(n, s, s', end)
  {
    var b := MakeBoundary(S, s, n, S.stages[n], wave);
    var (r, pre) := PreGates(S, b, s.meter, AttemptOf(s.attempts, n), PreRefs(S.stages[n]),
                             Emit(s.rec, NodeStart(n, S.stages[n].profile.role, wave)));
    NodeUnfolded(S, s, n, wave, b, r, pre);
    if pre == PrePassed {
      var l := Loop(r, s.meter, s.routing, s.attempts, false);
      AttemptsFlagged(S, b, |s.durable.commits| + 1, l);
      AttemptsCounters(S, b, |s.durable.commits| + 1, l);
      StopIsNotCommitted(S, b, |s.durable.commits| + 1, l);
      FinishTallied(S, b, s, Attempts(S, b, |s.durable.commits| + 1, l));
    }
  }

  // ---------------------------------------------------------------- every run

  /** The concerns are the done nodes that were retried. */
  ghost predicate Tallied(s: RunState) {
    s.concerns == Retried(DoneNodes(s.rec.trace), s.attempts)
  }

  /** The done nodes between two nodes are the commits. */
  lemma {:induction false} DoneAreCommits(S: Session, s: RunState)
    requires Inv(S, s)
    ensures DoneNodes(s.rec.trace) == Order(S)[..|s.durable.commits|]
  {
    DoneNodesOfBlocks(s.rec.trace);
    DoneBlocksDone(S, |s.durable.commits|);
  }

  /** The done nodes after a node that did not commit are those before it. */
  lemma {:induction false} NoneDone(S: Session, s: RunState, s': RunState, end: NodeEnd)
    requires Due(S, s) && NodeOutcome(S, s, s', end) && end != Committed
    ensures DoneNodes(s'.rec.trace) == Order(S)[..|s.durable.commits|]
  {
    DoneBlocksDone(S, |s.durable.commits|);
    DoneNodesOfBlocks(s'.rec.trace);
    if end != Panicked {
      EndDone(S, s, s');
    }
  }

  lemma {:induction false} EndDone(S: Session, s: RunState, s': RunState)
    requires TraceEnds(S, s, s')
    ensures DoneNodes(s'.rec.trace) == DoneOf(DoneBlocks(S, |s.durable.commits|))
  {
    var k := |s.durable.commits|;
    var kind :| kind != StopDone &&
      Parse(s'.rec.trace) == Between(DoneBlocks(S, k) + [Block(NodeDue(S, s), WaveDue(S, s), kind)]);
    DoneOfSnoc(DoneBlocks(S, k), Block(NodeDue(S, s), WaveDue(S, s), kind));
    DoneNodesOfBlocks(s'.rec.trace);
  }

  lemma {:induction false} NodeKeepsTally(done: seq<NodeId>, n: NodeId, s: RunState, s': RunState, end: NodeEnd)
    requires n !in done && NodeTallied(n, s, s', end) && s.concerns == Retried(done, s.attempts)
    ensures s'.concerns == Retried(if end == Committed then done + [n] else done, s'.attempts)
  {
    RetriedStays(done, s.attempts, s'.attempts, n);
    RetriedSnoc(done, n, s'.attempts);
  }

  lemma {:induction false} DueIsNew(S: Session, s: RunState)
    requires Due(S, s)
    ensures NodeDue(S, s) in S.stages && NodeDue(S, s) !in Order(S)[..|s.durable.commits|]
  {
    OrderInside(S.g, S.waves, |s.durable.commits|);
    forall i | 0 <= i < |s.durable.commits| ensures Order(S)[i] != NodeDue(S, s) {
      OrderDistinct(S.g, S.waves, i, |s.durable.commits|);
    }
  }

  lemma {:induction false} DoneAfter(S: Session, s: RunState, s': RunState, end: NodeEnd)
    requires Due(S, s) && NodeOutcome(S, s, s', end)
    ensures var done := Order(S)[..|s.durable.commits|];
            DoneNodes(s'.rec.trace) == if end == Committed then done + [NodeDue(S, s)] else done
  {
    if end == Committed {
      DoneAreCommits(S, s');
    } else {
      NoneDone(S, s, s', end);
    }
  }

  lemma {:induction false} DueTallied(S: Session, s: RunState) returns (s1: RunState, end: NodeEnd)
    requires Due(S, s) && Tallied(s)
    ensures (s1, end) == RunDue(S, s) && Tallied(s1)
    ensures end == Committed ==> Inv(S, s1) && |s1.durable.commits| == |s.durable.commits| + 1
  {
    FullBudgets(S, s, Loop(s.rec, s.meter, s.routing, s.attempts, false));
    DueIsNew(S, s);
    NodeIsTallied(S, s, NodeDue(S, s), WaveDue(S, s));
    s1, end := NodeUnfolds(S, s);
    DoneAreCommits(S, s);
    DoneAfter(S, s, s1, end);
    NodeKeepsTally(Order(S)[..|s.durable.commits|], NodeDue(S, s), s, s1, end);
  }

  lemma {:induction false} PollTallied(S: Session, s: RunState, first: bool) returns (s0: RunState)
    requires Inv(S, s) && Tallied(s)
    ensures s0 == s.(rec := PollBefore(S, s.rec, first).0) && Inv(S, s0) && Tallied(s0)
  {
    PollKeepsInv(S, s, first);
    s0 := s.(rec := PollBefore(S, s.rec, first).0);
  }

  lemma {:induction false} TallyStep(S: Session, s: RunState) returns (s1: RunState, goes: bool)
    requires Inv(S, s) && Tallied(s)
    ensures goes ==> Inv(S, s1) && Tallied(s1) && |s1.durable.commits| == |s.durable.commits| + 1 <= |Order(S)|
                     && RunFrom(S, s) == RunFrom(S, s1)
    ensures !goes ==> RunFrom(S, s).0 == s1 && Tallied(s1)
  {
    s1, goes := s, false;
    if |s.durable.commits| < |Order(S)| {
      RunFromUnfolds(S, s);
      var first := WaveAt(S.waves, |s.durable.commits|).1;
      s1 := PollTallied(S, s, first);
      if !PollBefore(S, s.rec, first).1 {
        var end;
        s1, end := DueTallied(S, s1);
        goes := end == Committed;
      }
    }
  }

  lemma {:induction false} RunFromTallied(S: Session, s: RunState)
    requires Inv(S, s) && Tallied(s) && |s.durable.commits| <= |Order(S)|
    ensures Tallied(RunFrom(S, s).0)
    decreases |Order(S)| - |s.durable.commits|
  {
    var s1, goes := TallyStep(S, s);
    if goes {
      RunFromTallied(S, s1);
    }
  }

  lemma {:induction false} CloseTallied(s: RunState, close: Event)
    requires Tallied(s) && close.SessionClose?
    ensures Tallied(s.(rec := Emit(s.rec, close)))
  {
    DoneNodesSnoc(s.rec.trace, close);
    assert DoneNodes(s.rec.trace + [close]) == DoneNodes(s.rec.trace);
  }

  /** The concerns of every run are the nodes that were stopped as done after at least one retry. */
  lemma {:induction false} ConcernsAreRetriedNodes(S: Session)
    requires Compiled(S)
    ensures Tallied(Run(S).0)
  {
    InitInv(S);
    DoneAreCommits(S, InitState(S));
    RunFromTallied(S, InitState(S));
    var (s, e) := RunFrom(S, InitState(S));
    if e.Ended? {
      CloseTallied(s, SessionClose(S.sessionId, e.state));
    }
  }
}
