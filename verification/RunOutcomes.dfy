/**
 * Whole runs: by induction over the committed nodes, how every run ends.
 */
module RunOutcomes {
  import opened Core
  import opened Domain
  import opened Router
  import opened RunModel
  import opened CommitOrder
  import opened Readers
  import opened RunTrace
  import opened RunRouting
  import opened RunDurable
  import opened RunTaint
  import opened RunInvariant
  import opened RunSteps

  // ---------------------------------------------------------------- the start

  lemma {:induction false} OpeningParses(S: Session)
    ensures Parse(Opening(S)) == Between([])
    ensures ReadPasses(Opening(S)) == PassReader(None, [])
    ensures TraceTokens(Opening(S)) == 0
  {
    var e, f := SessionOpen(S.sessionId, S.seed, S.budgetTokens), PlanCompiled(S.planHash, |S.stages|);
    assert Opening(S) == ([] + [e]) + [f];
    ParseSnoc([], e);
    ParseSnoc([e], f);
    ReadPassesSnoc([], e);
    ReadPassesSnoc([e], f);
    TraceTokensSnoc([], e);
    TraceTokensSnoc([e], f);
  }

  lemma {:induction false} InitRoutingOk(S: Session)
    ensures RoutingOk(S, InitState(S).routing, InitState(S).durable)
  {
    assert LastN<Handoff>([], S.policy.pingPongWindow) == [];
  }

  lemma {:induction false} InitInv(S: Session)
    requires Compiled(S)
    ensures Inv(S, InitState(S))
  {
    InitDurableOk(S);
    OpeningParses(S);
    InitRoutingOk(S);
    assert DoneBlocks(S, 0) == [];
  }

  // ---------------------------------------------------------------- the wave loop

  /** The polls before a node only move the clock. */
  lemma {:induction false} PollKeepsInv(S: Session, s: RunState, first: bool)
    requires Inv(S, s)
    ensures var s0 := s.(rec := PollBefore(S, s.rec, first).0); Inv(S, s0) && s0.durable == s.durable
  {
  }

  /** How a run ended, told from the state s0 it last had between two nodes. */
  ghost predicate EndedFrom(S: Session, s0: RunState, last: Option<NodeEnd>, s: RunState, e: Ending) {
    match last
    case None => s == s0 && Inv(S, s) && e == Ended(if |s.durable.commits| == |Order(S)| then Completed
                                                    else Suspended, None)
    case Some(end) =>
      && end != Committed && e == EndingOf(end) && NodeOutcome(S, s0, s, end)
  }

  /** The wave loop, one node unfolded. */
  lemma {:induction false} RunFromUnfolds(S: Session, s: RunState)
    requires |s.durable.commits| < |Order(S)|
    ensures var (r, stop) := PollBefore(S, s.rec, WaveAt(S.waves, |s.durable.commits|).1);
            var s0 := s.(rec := r);
            RunFrom(S, s)
            == if stop then (s0, Ended(Suspended, None))
               else if RunDue(S, s0).1 == Committed then RunFrom(S, RunDue(S, s0).0)
               else (RunDue(S, s0).0, EndingOf(RunDue(S, s0).1))
  {
  }

  lemma {:induction false} NodeUnfolds(S: Session, s: RunState) returns (s1: RunState, end: NodeEnd)
    requires Due(S, s)
    ensures (s1, end) == RunDue(S, s) && NodeOutcome(S, s, s1, end)
  {
    NodeKeepsInv(S, s);
    s1, end := RunDue(S, s).0, RunDue(S, s).1;
  }

  lemma {:induction false} RunFromStep(S: Session, s: RunState)
    returns (s0: RunState, last: Option<NodeEnd>, s1: RunState)
    requires Inv(S, s)
    ensures s0.durable == s.durable
    ensures last.None? ==> EndedFrom(S, s0, None, RunFrom(S, s).0, RunFrom(S, s).1)
    ensures last.Some? ==>
              && |s.durable.commits| < |Order(S)| && NodeOutcome(S, s0, s1, last.value)
              && RunFrom(S, s) == if last.value == Committed then RunFrom(S, s1) else (s1, EndingOf(last.value))
  {
    s0, last, s1 := s, None, s;
    if |s.durable.commits| < |Order(S)| {
      RunFromUnfolds(S, s);
      var first := WaveAt(S.waves, |s.durable.commits|).1;
      PollKeepsInv(S, s, first);
      var (r, stop) := PollBefore(S, s.rec, first);
      s0 := s.(rec := r);
      if !stop {
        var end;
        s1, end := NodeUnfolds(S, s0);
        last := Some(end);
      }
    }
  }

  lemma {:induction false} RunFromEnds(S: Session, s: RunState) returns (s0: RunState, last: Option<NodeEnd>)
    requires Inv(S, s)
    ensures EndedFrom(S, s0, last, RunFrom(S, s).0, RunFrom(S, s).1)
    decreases Monus(|Flatten(S.waves)|, |s.durable.commits|)
  {
    var s1;
    s0, last, s1 := RunFromStep(S, s);
    if last == Some(Committed) {
      s0, last := RunFromEnds(S, s1);
    }
  }

  /** What every run leaves, however it ended: a well-formed trace, rows, calls, counters and tokens in order. */
  ghost predicate Account(S: Session, s: RunState) {
    && Parse(s.rec.trace) != Foreign && Conserved(s.rec.trace, s.meter)
    && DurableOk(S, s.durable) && ReplayOk(S, s.durable) && TaintOk(S, s.durable)
    && CommitsPlaced(S, s.rec.trace, s.durable)
    && CallsOk(S, s.rec.calls, |Order(S)|)
    && CountersOk(S, s, S.g.nodes)
    && GuardOk(S, s.routing) && s.routing.accepted <= AcceptedUpTo(S.g, Order(S))
  }

  lemma {:induction false} AcceptedGrows(S: Session, k: nat)
    requires k <= |Order(S)|
    ensures AcceptedUpTo(S.g, Order(S)[..k]) <= AcceptedUpTo(S.g, Order(S))
    decreases |Order(S)| - k
  {
    if k < |Order(S)| {
      AcceptedGrows(S, k + 1);
      AcceptedNext(S, k);
    } else {
      assert Order(S)[..k] == Order(S);
    }
  }

  lemma {:induction false} NodesOfOrder(S: Session, k: nat)
    requires Compiled(S) && k <= |Order(S)|
    ensures SetOf(Order(S)[..k]) <= S.g.nodes
  {
    forall n | n in Order(S)[..k] ensures n in S.g.nodes {
      var i :| 0 <= i < k && Order(S)[i] == n;
      OrderInside(S.g, S.waves, i);
    }
  }

  lemma {:induction false} InvAccount(S: Session, s: RunState)
    requires Inv(S, s)
    ensures Account(S, s)
  {
    NodesOfOrder(S, |s.durable.commits|);
    AcceptedGrows(S, |s.durable.commits|);
    CallsWithin(S, s.rec.calls, |s.durable.commits|);
  }

  lemma {:induction false} CallsWithin(S: Session, calls: seq<ExecCall>, k: nat)
    requires CallsOk(S, calls, k)
    ensures CallsOk(S, calls, |Order(S)|)
  {
  }

  lemma {:induction false} StepCounters(S: Session, s0: RunState, s: RunState)
    requires Compiled(S) && DurableOk(S, s0.durable) && StepOk(S, s0, s)
    ensures CountersOk(S, s, S.g.nodes)
  {
    NodesOfOrder(S, |s0.durable.commits|);
    OrderInside(S.g, S.waves, |s0.durable.commits|);
  }

  lemma {:induction false} StepRouted(S: Session, s0: RunState, s: RunState)
    requires StepOk(S, s0, s)
    ensures CallsOk(S, s.rec.calls, |Order(S)|)
    ensures GuardOk(S, s.routing) && s.routing.accepted <= AcceptedUpTo(S.g, Order(S))
  {
    AcceptedGrows(S, |s0.durable.commits| + 1);
    CallsWithin(S, s.rec.calls, |s0.durable.commits| + 1);
  }

  lemma {:induction false} StepAccount(S: Session, s0: RunState, s: RunState)
    requires Due(S, s0) && StepOk(S, s0, s) && DurableOk(S, s.durable) && ReplayOk(S, s.durable)
             && TaintOk(S, s.durable)
    requires CommitsPlaced(S, s.rec.trace, s.durable)
    requires Parse(s.rec.trace) != Foreign && Conserved(s.rec.trace, s.meter)
    ensures Account(S, s)
  {
    StepCounters(S, s0, s);
    StepRouted(S, s0, s);
  }

  lemma {:induction false} NodeAccount(S: Session, s0: RunState, s: RunState, end: NodeEnd)
    requires NodeOutcome(S, s0, s, end) && end != Committed
    ensures Account(S, s)
  {
    if end == Panicked {
      CommitsStayPlaced(S, s0.rec.trace, s.rec.trace, s0.durable);
    }
    StepAccount(S, s0, s);
  }

  lemma {:induction false} EndAccount(S: Session, s0: RunState, last: Option<NodeEnd>, s: RunState, e: Ending)
    requires EndedFrom(S, s0, last, s, e)
    ensures Account(S, s)
  {
    if last.None? {
      InvAccount(S, s);
    } else {
      NodeAccount(S, s0, s, last.value);
    }
  }

  /** A run that ended normally stands between two nodes. */
  lemma {:induction false} EndBetween(S: Session, s0: RunState, last: Option<NodeEnd>, s: RunState, e: Ending)
    requires EndedFrom(S, s0, last, s, e) && e.Ended?
    ensures Parse(s.rec.trace).Between?
  {
  }

  lemma {:induction false} CloseKeepsAccount(S: Session, s: RunState, e: Event)
    requires Account(S, s) && Parse(s.rec.trace).Between? && e.SessionClose?
    ensures Account(S, s.(rec := Emit(s.rec, e)))
  {
    ParseSnoc(s.rec.trace, e);
    TraceTokensSnoc(s.rec.trace, e);
    CommitsStayPlaced(S, s.rec.trace, s.rec.trace + [e], s.durable);
  }

  /** The account of every run of a compiled plan, also of one that crashed. */
  lemma {:induction false} RunAccount(S: Session) returns (s: RunState)
    requires Compiled(S)
    ensures s == Run(S).0 && Account(S, s)
  {
    var s0, last, s1 := RunEnds(S);
    var e := Run(S).1;
    EndAccount(S, s0, last, s1, e);
    s := s1;
    if e.Ended? {
      s := s1.(rec := Emit(s1.rec, SessionClose(S.sessionId, e.state)));
      EndBetween(S, s0, last, s1, e);
      CloseKeepsAccount(S, s1, SessionClose(S.sessionId, e.state));
    }
  }

  /** How every run of a compiled plan ends. */
  lemma {:induction false} RunEnds(S: Session) returns (s0: RunState, last: Option<NodeEnd>, s: RunState)
    requires Compiled(S)
    ensures EndedFrom(S, s0, last, s, Run(S).1)
    ensures Run(S).0 == match Run(S).1
                        case Crash => s
                        case Ended(state, _) => s.(rec := Emit(s.rec, SessionClose(S.sessionId, state)))
  {
    InitInv(S);
    s0, last := RunFromEnds(S, InitState(S));
    s := RunFrom(S, InitState(S)).0;
  }
}
