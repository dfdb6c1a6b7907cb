/**
 * A warning can be lost: the recheck at a commit may fire a scope, and nobody records it.
 */
module RunLostWarnings {
  import opened Core
  import opened Domain
  import opened Waves
  import opened Budget
  import opened RunModel
  import opened RunDurable
  import opened RunInvariant
  import opened RunUndisturbed
  import opened RunWitnesses
  import opened RunWork
  import opened RunEvents
  import opened RunWarnings

  /**
   * A scope whose warning the recheck of a commit finds due is marked as warned, while the log
   * gets nothing but the stop event: this scope never warns again.
   */
  lemma {:induction false} RecheckDropsWarning(S: Session, b: Boundary, s: RunState, l: Loop, p: Product, scope: Scope)
    requires Paired(S.budget) && InOrder(S, s.durable, b.node)
    requires var m' := MeterCall(S.budget, l.meter, S.team, b.stage.profile.role, Llm, 0, 0).0;
             && !SuspendReached(Snapshot(S.budget, m', b.stage.profile.role))
             && FirstDueAfter(S.budget, l.meter.fired, m', b.stage.profile.role, scope)
    ensures var (s', end) := CommitNode(S, b, s, l, p);
            && end == Committed && s'.meter.fired == l.meter.fired + {scope}
            && s'.rec.trace == l.rec.trace + [StopEvent(b, StopDone)]
  {
    MeterCallWarns(S.budget, l.meter, S.team, b.stage.profile.role, Llm, 0, 0, scope);
  }

  // ---------------------------------------------------------------- a run that loses one

  /** The llm.call events of a trace. */
  function CallsIn(es: seq<Event>): nat {
    if es == [] then 0 else CallsIn(es[..|es| - 1]) + if es[|es| - 1].LlmCall? then 1 else 0
  }

  lemma {:induction false} TellsBefore(S: Session, es: seq<Event>)
    requires EventsTell(S, es) && es != []
    ensures EventsTell(S, es[..|es| - 1]) && EventTells(S, es[..|es| - 1], es[|es| - 1])
  {
    var rest := es[..|es| - 1];
    forall x | 0 <= x < |rest| ensures EventTells(S, rest[..x], rest[x]) {
      assert rest[..x] == es[..x];
      assert EventTells(S, es[..x], es[x]);
    }
  }

  /** A warning stands right behind an llm.call, so there are no more of them. */
  lemma {:induction false} WarnsBehindCalls(S: Session, es: seq<Event>)
    requires EventsTell(S, es)
    ensures WarnsIn(es) <= CallsIn(es)
    ensures es != [] && es[|es| - 1].LlmCall? ==> WarnsIn(es) < CallsIn(es)
    decreases |es|
  {
    if es != [] {
      TellsBefore(S, es);
      WarnsBehindCalls(S, es[..|es| - 1]);
    }
  }

  lemma {:induction false} CallsOnlyAt(es: seq<Event>, p: nat)
    requires forall x | 0 <= x < |es| && es[x].LlmCall? :: x == p
    ensures CallsIn(es) <= if p < |es| then 1 else 0
    decreases |es|
  {
    if es != [] {
      CallsOnlyAt(es[..|es| - 1], p);
    }
  }

  /** Without replayed rows one executor call leaves one llm.call, and so one warning at most. */
  lemma {:induction false} OneCallWarnsOnce(S: Session)
    requires Paired(S.budget) && S.fork.None? && |Run(S).0.rec.calls| == 1
    ensures WarnsIn(Run(S).0.rec.trace) <= 1
  {
    EveryEventTells(S);
    CallsAreLogged(S);
    var r := Run(S).0.rec;
    WarnsBehindCalls(S, r.trace);
    CallsOnlyAt(r.trace, r.calls[0].at);
  }

  const SPENDER := Report(Text(""), 0.0, 80, 0, 0, "", None, None)

  /** Session and team are capped at 100 tokens each, with their warn lines at 80. */
  const TWO_LINES := Freeze(BudgetEnvelope(Some(100), Some(100), map[], 80, 100))

  function SpendingWorld(): World {
    World(
      (i: nat, request: StageRequest) => Finished(SPENDER),
      (i: nat, request: StageRequest) => [],
      (i: nat, run: GateRun) => GateAnswer(run.gateRef, Pass(1.0)),
      (i: nat, hash: Option<Digest>) => false,
      (i: nat) => false,
      (c: HandoffContract) => Digest(""))
  }

  /** A one-stage plan whose one report spends 80 tokens. */
  function SpendingSession(): Session {
    Session(
      "task",
      map[FIRST := SampleStage(FIRST)],
      Digraph({FIRST}, map[FIRST := {}]),
      [[FIRST]],
      PolicySet(20, 8, 2, 0.0),
      TWO_LINES, None, None, SpendingWorld(), "session", 0, Some(100), Digest(""))
  }

  lemma {:induction false} TwoLines(role: AgentRole)
    ensures TWO_LINES.session == TWO_LINES.team == Lines(Some(80), Some(100))
    ensures AgentLines(TWO_LINES, role) == Lines(None, None)
  {
  }

  /** A metering call by its parts: the new spends, and the engine's judgment of them. */
  lemma {:induction false} MeterParts(b: SessionBudget, m: Meter, team: Option<Id>, role: AgentRole, tokensIn: nat)
    returns (m': Meter, v: SpendVerdict)
    ensures (m', v) == MeterCall(b, m, team, role, Llm, tokensIn, 0)
    ensures SessionSpentOf(m') == SessionSpentOf(m) + tokensIn && m'.teamSpent == m.teamSpent + tokensIn
    ensures var (judged, fired) := Evaluate(b, m.fired, SessionSpentOf(m'), m'.teamSpent, role, AgentSpentOf(m', role));
            v == ToSpend(judged) && m'.fired == fired
  {
    TotalAppend(m.rows, MeterRow(MaxSeq(m.rows) + 1, team, role, Llm, tokensIn, 0));
    m', v := MeterCall(b, m, team, role, Llm, tokensIn, 0).0, MeterCall(b, m, team, role, Llm, tokensIn, 0).1;
  }

  lemma {:induction false} BothJudged(b: SessionBudget, role: AgentRole, spent: nat)
    requires b.session == b.team == Lines(Some(80), Some(100)) && AgentLines(b, role) == Lines(None, None)
    ensures Evaluate(b, {}, 80, 80, role, spent) == (Warn(SessionScope, 80, Some(20)), {SessionScope})
    ensures Evaluate(b, {SessionScope}, 80, 80, role, spent)
            == (Warn(TeamScope, 80, Some(20)), {SessionScope, TeamScope})
  {
    var none: set<Scope> := {};
    assert none + {SessionScope} == {SessionScope};
    assert {SessionScope} + {TeamScope} == {SessionScope, TeamScope};
  }

  /** The call warns for the session and the recheck fires the team. */
  lemma {:induction false} BothFire(b: SessionBudget, team: Option<Id>, role: AgentRole)
    requires b.session == b.team == Lines(Some(80), Some(100)) && AgentLines(b, role) == Lines(None, None)
    ensures var (m, v) := MeterCall(b, FRESH_METER, team, role, Llm, 80, 0);
            && v == SpendWarn(80, Some(20)) && m.fired == {SessionScope}
            && var (m', v') := MeterCall(b, m, team, role, Llm, 0, 0);
               v' == SpendWarn(80, Some(20)) && m'.fired == {SessionScope, TeamScope}
  {
    var m, v := MeterParts(b, FRESH_METER, team, role, 80);
    BothJudged(b, role, AgentSpentOf(m, role));
    var m', v' := MeterParts(b, m, team, role, 0);
    BothJudged(b, role, AgentSpentOf(m', role));
  }

  lemma {:induction false} SpendingCommit(S: Session, b: Boundary, s: RunState, l: Loop, p: Product)
    requires InOrder(S, s.durable, b.node)
    requires !MeterCall(S.budget, l.meter, S.team, b.stage.profile.role, Llm, 0, 0).1.SpendExceeded?
    ensures var (s', end) := CommitNode(S, b, s, l, p);
            && end == Committed && s'.rec.calls == l.rec.calls && s'.durable.commits == s.durable.commits + [b.node]
            && s'.meter == MeterCall(S.budget, l.meter, S.team, b.stage.profile.role, Llm, 0, 0).0
  {
  }

  lemma {:induction false} SpendingRun(S: Session, s: RunState, n: NodeId) returns (s1: RunState)
    requires Undisturbed(S) && AlwaysReports(S, SPENDER) && CachedRow(S, |s.durable.commits| + 1).None?
    requires |s.durable.commits| < |Order(S)| && n == NodeDue(S, s) && n in S.stages && Succs(S.g, n) == {}
    requires S.budget == TWO_LINES && s.meter == FRESH_METER && InOrder(S, s.durable, n)
    ensures RunFrom(S, s) == RunFrom(S, s1) && s1.durable.commits == s.durable.commits + [n]
    ensures s1.meter.fired == {SessionScope, TeamScope} && |s1.rec.calls| == |s.rec.calls| + 1
  {
    var s0, b, l := DueNodeOpens(S, s, n);
    TerminalTurn(S, b, |s.durable.commits| + 1, l, SPENDER);
    var t := Attempts(S, b, |s.durable.commits| + 1, l);
    TwoLines(b.stage.profile.role);
    BothFire(S.budget, S.team, b.stage.profile.role);
    SpendingCommit(S, b, s0, t.l, t.product);
    s1 := FinishNode(S, b, s0, t).0;
  }

  lemma {:induction false} SpendingSessionCompiles()
    ensures var S := SpendingSession();
            Compiled(S) && Order(S) == [FIRST] && InOrder(S, InitState(S).durable, FIRST)
  {
    var S := SpendingSession();
    OneStageLevelled(S.g, S.waves);
    FrozenIsPaired(BudgetEnvelope(Some(100), Some(100), map[], 80, 100));
  }

  lemma {:induction false} SpendingSessionRuns(S: Session)
    requires S == SpendingSession() && Order(S) == [FIRST] && InOrder(S, InitState(S).durable, FIRST)
    ensures var (s, e) := Run(S);
            e == Ended(Completed, None) && s.meter.fired == {SessionScope, TeamScope} && |s.rec.calls| == 1
  {
    var s1 := SpendingRun(S, InitState(S), FIRST);
    assert s1.durable.commits == [FIRST];
  }

  /**
   * The run that loses one: a call of 80 tokens takes the session and the team to their warn
   * lines at once. The run completes with both scopes marked as warned and only one warning on
   * record; the team's is never given.
   */
  lemma {:induction false} SecondWarningIsLost()
    ensures var S := SpendingSession(); var (s, e) := Run(S);
            && Compiled(S) && e == Ended(Completed, None)
            && s.meter.fired == {SessionScope, TeamScope} && WarnsIn(s.rec.trace) <= 1
  {
    var S := SpendingSession();
    SpendingSessionCompiles();
    SpendingSessionRuns(S);
    OneCallWarnsOnce(S);
  }
}
