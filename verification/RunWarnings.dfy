/**
 * The warnings of a run: the llm.call that takes a scope to its warn line for the first time
 * is followed by that scope's warning at once.
 */
module RunWarnings {
  import opened Core
  import opened Domain
  import opened Budget
  import opened RunModel
  import opened RunActions
  import opened RunWork
  import opened RunEvents

  // ---------------------------------------------------------------- reaching a line

  /** After these events the role's spend in the scope has reached the scope's warn line. */
  ghost predicate Reached(S: Session, es: seq<Event>, role: AgentRole, scope: Scope) {
    LineReached(WarnLine(S.budget, role, scope), ScopeSpent(StateAfter(S, es, role), scope))
  }

  /** Before these events no role had reached the line of the scope. */
  ghost predicate Unreached(S: Session, es: seq<Event>, scope: Scope) {
    forall role: AgentRole :: !Reached(S, es, role, scope)
  }

  /**
   * The last of these events takes the scope to its warn line for the first time, no wider
   * scope's warn line is reached, and no suspend line.
   */
  ghost predicate FirstReach(S: Session, es: seq<Event>, role: AgentRole, scope: Scope) {
    && JustCalled(S, es, role) && Reached(S, es, role, scope) && Unreached(S, es[..|es| - 1], scope)
    && !SuspendReached(StateAfter(S, es, role))
    && forall wider: Scope | RankOf(wider) < RankOf(scope) :: !Reached(S, es, role, wider)
  }

  /** The warning of a scope after these events. */
  ghost predicate WarningOf(S: Session, es: seq<Event>, role: AgentRole, scope: Scope, e: Event) {
    && e.BudgetEvent? && e.level == WarnLevel && e.spent == ScopeSpent(StateAfter(S, es, role), scope)
    && ScopeSuspendLimit(StateAfter(S, es, role), scope) == Some(e.spent + e.remaining)
  }

  /** If the x-th event makes a scope's warning due, the next event is that warning. */
  ghost predicate RaisedAt(S: Session, es: seq<Event>, x: nat)
    requires x < |es|
  {
    var upto := es[..x + 1];
    forall role: AgentRole, scope: Scope :: FirstReach(S, upto, role, scope) ==>
      x + 1 < |es| && WarningOf(S, upto, role, scope, es[x + 1])
  }

  ghost predicate WarningsRaised(S: Session, es: seq<Event>) {
    forall x: nat | x < |es| :: RaisedAt(S, es, x)
  }

  // ---------------------------------------------------------------- every action keeps it

  lemma {:induction false} RaisedStays(S: Session, es: seq<Event>, e: Event, x: nat)
    requires x < |es| && RaisedAt(S, es, x)
    ensures RaisedAt(S, es + [e], x)
  {
    assert (es + [e])[..x + 1] == es[..x + 1];
  }

  lemma {:induction false} RaisedByOther(S: Session, es: seq<Event>, e: Event)
    requires !e.LlmCall?
    ensures RaisedAt(S, es + [e], |es|)
  {
    assert (es + [e])[..|es| + 1] == es + [e];
  }

  lemma {:induction false} OtherRaised(S: Session, es: seq<Event>, e: Event)
    requires WarningsRaised(S, es) && !e.LlmCall?
    ensures WarningsRaised(S, es + [e])
  {
    forall x: nat | x < |es + [e]| ensures RaisedAt(S, es + [e], x) {
      if x < |es| {
        RaisedStays(S, es, e, x);
      } else {
        RaisedByOther(S, es, e);
      }
    }
  }

  lemma {:induction false} OthersRaised(S: Session, es: seq<Event>, more: seq<Event>)
    requires WarningsRaised(S, es) && forall i | 0 <= i < |more| :: !more[i].LlmCall?
    ensures WarningsRaised(S, es + more)
    decreases |more|
  {
    if more == [] {
      assert es + more == es;
    } else {
      OtherRaised(S, es, more[0]);
      OthersRaised(S, es + [more[0]], more[1..]);
      assert es + more == es + [more[0]] + more[1..];
    }
  }

  /** A first reach is a first due warning: nothing of the scope has fired. */
  lemma {:induction false} ReachIsDue(S: Session, es: seq<Event>, e: Event, m: Meter, role: AgentRole, scope: Scope)
    requires LedgerTold(S, es, m) && FiredReached(S.budget, m) && e.LlmCall?
    requires FirstReach(S, es + [e], role, scope)
    ensures var m' := MeterCall(S.budget, m, S.team, role, Llm, e.tokensIn, e.tokensOut).0;
            && !SuspendReached(Snapshot(S.budget, m', role)) && FirstDueAfter(S.budget, m.fired, m', role, scope)
            && Snapshot(S.budget, m', role) == StateAfter(S, es + [e], role)
  {
    CallCharged(S, es, e, m, role);
    var m' := MeterCall(S.budget, m, S.team, role, Llm, e.tokensIn, e.tokensOut).0;
    SnapshotTold(S, es + [e], m', role);
    assert (es + [e])[..|es|] == es;
    if scope in m.fired {
      var r: AgentRole :| LineReached(WarnLine(S.budget, r, scope), ScopeSpent(Snapshot(S.budget, m, r), scope));
      SnapshotTold(S, es, m, r);
      assert Reached(S, es, r, scope);
    }
  }

  lemma {:induction false} ReachIsWarned(S: Session, es: seq<Event>, e: Event, m: Meter, role: AgentRole, scope: Scope)
    returns (v: SpendVerdict)
    requires Paired(S.budget) && LedgerTold(S, es, m) && FiredReached(S.budget, m) && e.LlmCall?
    requires FirstReach(S, es + [e], role, scope)
    ensures v == MeterCall(S.budget, m, S.team, role, Llm, e.tokensIn, e.tokensOut).1
    ensures v.SpendWarn? && v.remaining.Some?
    ensures WarningOf(S, es + [e], role, scope, BudgetEvent(WarnLevel, v.spent, v.remaining.value))
  {
    ReachIsDue(S, es, e, m, role, scope);
    MeterCallWarns(S.budget, m, S.team, role, Llm, e.tokensIn, e.tokensOut, scope);
    v := MeterCall(S.budget, m, S.team, role, Llm, e.tokensIn, e.tokensOut).1;
  }

  /** The llm.call of a metered output with whatever follows it. */
  lemma {:induction false} CallRaised(S: Session, s: RunState, n: NodeId, o: NodeOutput)
    requires Paired(S.budget) && n in S.stages && LedgerTold(S, s.rec.trace, s.meter) && FiredReached(S.budget, s.meter)
    ensures RaisedAt(S, SpendOn(S, s, S.stages[n], n, o).rec.trace, |s.rec.trace|)
  {
    var es := s.rec.trace;
    var e, v, s1 := SpendParts(S, s, n, o);
    var es' := SpendOn(S, s, S.stages[n], n, o).rec.trace;
    assert es'[..|es| + 1] == es + [e];
    forall role: AgentRole, scope: Scope | FirstReach(S, es + [e], role, scope)
      ensures |es| + 1 < |es'| && WarningOf(S, es + [e], role, scope, es'[|es| + 1])
    {
      assert role == S.stages[n].profile.role;
      var _ := ReachIsWarned(S, es, e, s.meter, role, scope);
    }
  }

  lemma {:induction false} SpendRaised(S: Session, s: RunState, n: NodeId, o: NodeOutput)
    requires Paired(S.budget) && n in S.stages && LedgerTold(S, s.rec.trace, s.meter) && FiredReached(S.budget, s.meter)
    requires WarningsRaised(S, s.rec.trace)
    ensures WarningsRaised(S, SpendOn(S, s, S.stages[n], n, o).rec.trace)
  {
    var es := s.rec.trace;
    CallRaised(S, s, n, o);
    var e, v, s1 := SpendParts(S, s, n, o);
    var es' := SpendOn(S, s, S.stages[n], n, o).rec.trace;
    forall x: nat | x < |es'| ensures RaisedAt(S, es', x) {
      if x < |es| {
        RaisedStays(S, es, e, x);
        if |es'| == |es| + 2 {
          RaisedStays(S, es + [e], es'[|es| + 1], x);
          assert es' == es + [e] + [es'[|es| + 1]];
        }
      } else if x == |es| + 1 {
        assert es' == es + [e] + [es'[x]];
        RaisedByOther(S, es + [e], es'[x]);
      }
    }
  }

  lemma {:induction false} SpendFires(S: Session, s: RunState, n: NodeId, o: NodeOutput)
    requires Paired(S.budget) && n in S.stages && FiredReached(S.budget, s.meter)
    ensures FiredReached(S.budget, SpendOn(S, s, S.stages[n], n, o).meter)
  {
    FiredStaysReached(S.budget, s.meter, S.team, S.stages[n].profile.role, Llm, TokensIn(o), TokensOut(o));
  }

  /** The warnings are raised, next to what the log tells. */
  ghost predicate WarnTold(S: Session, s: RunState) {
    LogTold(S, s) && FiredReached(S.budget, s.meter) && WarningsRaised(S, s.rec.trace)
  }

  lemma {:induction false} WorkRaised(S: Session, s: RunState, nextSeq: nat, request: StageRequest)
    requires Paired(S.budget) && WarnTold(S, s) && May(S, s, Work(nextSeq, request))
    ensures var s' := Act(S, s, Work(nextSeq, request));
            FiredReached(S.budget, s'.meter) && WarningsRaised(S, s'.rec.trace)
  {
    var c := CallAdds(S, s.rec, nextSeq, request);
    OthersRaised(S, s.rec.trace, ToolEvents(request.node, S.world.tools(s.rec.clock, request)));
    AnswerTold(S, s, nextSeq, request);
    var (r, result) := AskExecutor(S, s.rec, nextSeq, request);
    var s1 := s.(rec := Tick(r));
    if result.Finished? {
      OtherRaised(S, r.trace, GateFail(request.node, CACHE_GATE, GATE_REJECT, 0.0, None, None));
      SpendRaised(S, s1, request.node, Live(result.report));
      SpendFires(S, s1, request.node, Live(result.report));
    }
  }

  lemma {:induction false} ActRaised(S: Session, s: RunState, a: Action)
    requires Paired(S.budget) && WarnTold(S, s) && May(S, s, a)
    ensures var s' := Act(S, s, a); FiredReached(S.budget, s'.meter) && WarningsRaised(S, s'.rec.trace)
  {
    var es := s.rec.trace;
    match a
    case Wait =>
    case Judge(run) => OtherRaised(S, es, GateEvent(run.node, S.world.judge(s.rec.clock, run), run.escalatedTo));
    case Announce(e) => OtherRaised(S, es, e);
    case Refuse(n, reason, score) => OtherRaised(S, es, GateFail(n, ROUTER_GATE, reason, score, None, None));
    case Work(nextSeq, request) => WorkRaised(S, s, nextSeq, request);
    case Replay(_, n, row) =>
      SpendRaised(S, s, n, Cached(row));
      SpendFires(S, s, n, Cached(row));
    case Recheck(role) => FiredStaysReached(S.budget, s.meter, S.team, role, Llm, 0, 0);
    case Hand(from, to, c, router) => OtherRaised(S, es, HandoffAccept(from, S.world.contractHash(c), to));
    case Settle(router, attempts) =>
    case Keep(durable, concerns) =>
  }

  lemma {:induction false} PathRaised(S: Session, x: RunState, actions: seq<Action>, y: RunState)
    requires Paired(S.budget) && WarnTold(S, x) && Path(S, x, actions, y)
    ensures WarnTold(S, y)
    decreases |actions|
  {
    if actions != [] {
      ActTold(S, x, actions[0]);
      ActRaised(S, x, actions[0]);
      PathRaised(S, Act(S, x, actions[0]), actions[1..], y);
    }
  }

  lemma {:induction false} OpeningRaised(S: Session)
    ensures WarningsRaised(S, InitState(S).rec.trace)
  {
    var e, f := SessionOpen(S.sessionId, S.seed, S.budgetTokens), PlanCompiled(S.planHash, |S.stages|);
    OthersRaised(S, [], [e, f]);
    assert [] + [e, f] == Opening(S);
  }

  /**
   * In every run the llm.call that takes a scope to its warn line for the first time, with no
   * suspend line reached and no wider scope's warn line, is followed at once by the scope's
   * warning, with its spend and what is left up to its suspend line.
   */
  lemma {:induction false} FirstReachIsWarned(S: Session)
    requires Paired(S.budget)
    ensures WarningsRaised(S, Run(S).0.rec.trace)
  {
    OpeningTold(S);
    OpeningRaised(S);
    RunActs(S);
    var actions :| Path(S, InitState(S), actions, Run(S).0);
    PathRaised(S, InitState(S), actions, Run(S).0);
  }

  // ---------------------------------------------------------------- at most one warning a scope

  predicate IsWarning(e: Event) {
    e.BudgetEvent? && e.level == WarnLevel
  }

  /** The warnings on record. */
  function WarnsIn(es: seq<Event>): nat {
    if es == [] then 0 else WarnsIn(es[..|es| - 1]) + if IsWarning(es[|es| - 1]) then 1 else 0
  }

  lemma {:induction false} WarnsSnoc(es: seq<Event>, e: Event)
    ensures WarnsIn(es + [e]) == WarnsIn(es) + if IsWarning(e) then 1 else 0
  {
    assert (es + [e])[..|es|] == es;
  }

  lemma {:induction false} NoWarnsAdded(es: seq<Event>, more: seq<Event>)
    requires forall i | 0 <= i < |more| :: !IsWarning(more[i])
    ensures WarnsIn(es + more) == WarnsIn(es)
    decreases |more|
  {
    if more == [] {
      assert es + more == es;
    } else {
      WarnsSnoc(es, more[0]);
      NoWarnsAdded(es + [more[0]], more[1..]);
      assert es + more == es + [more[0]] + more[1..];
    }
  }

  /** No more warnings are on record than scopes have fired. */
  ghost predicate AtMostFired(s: RunState) {
    WarnsIn(s.rec.trace) <= |s.meter.fired|
  }

  /** A metering call fires at most one scope, and with a warning exactly one new one. */
  lemma {:induction false} OneFires(b: SessionBudget, m: Meter, team: Option<Id>, role: AgentRole, kind: MeterKind,
                                    tokensIn: nat, tokensOut: nat)
    requires Paired(b)
    ensures var (m', v) := MeterCall(b, m, team, role, kind, tokensIn, tokensOut);
            |m'.fired| == |m.fired| + if v.SpendWarn? then 1 else 0
  {
    var m1 := Charge(m, team, role, kind, tokensIn, tokensOut);
    EvaluateAgreesWithSnapshot(b, m1.fired, SessionSpentOf(m1), m1.teamSpent, role, AgentSpentOf(m1, role));
  }

  lemma {:induction false} SpendAtMostFired(S: Session, s: RunState, n: NodeId, o: NodeOutput)
    requires Paired(S.budget) && n in S.stages && AtMostFired(s)
    ensures AtMostFired(SpendOn(S, s, S.stages[n], n, o))
  {
    var e, v, s1 := SpendParts(S, s, n, o);
    OneFires(S.budget, s.meter, S.team, S.stages[n].profile.role, Llm, TokensIn(o), TokensOut(o));
    WarnsSnoc(s.rec.trace, e);
    if v.SpendWarn? {
      WarnsSnoc(s.rec.trace + [e],
                BudgetEvent(WarnLevel, v.spent, if v.remaining.Some? then v.remaining.value else 0));
    }
  }

  lemma {:induction false} WorkAtMostFired(S: Session, s: RunState, nextSeq: nat, request: StageRequest)
    requires Paired(S.budget) && AtMostFired(s) && May(S, s, Work(nextSeq, request))
    ensures AtMostFired(Act(S, s, Work(nextSeq, request)))
  {
    var c := CallAdds(S, s.rec, nextSeq, request);
    NoWarnsAdded(s.rec.trace, ToolEvents(request.node, S.world.tools(s.rec.clock, request)));
    var (r, result) := AskExecutor(S, s.rec, nextSeq, request);
    if result.Finished? {
      WarnsSnoc(r.trace, GateFail(request.node, CACHE_GATE, GATE_REJECT, 0.0, None, None));
      SpendAtMostFired(S, s.(rec := Tick(r)), request.node, Live(result.report));
    }
  }

  lemma {:induction false} OtherAtMostFired(s: RunState, s': RunState, e: Event)
    requires AtMostFired(s) && !IsWarning(e) && s'.rec.trace == s.rec.trace + [e] && s'.meter.fired == s.meter.fired
    ensures AtMostFired(s')
  {
    WarnsSnoc(s.rec.trace, e);
  }

  lemma {:induction false} ActAtMostFired(S: Session, s: RunState, a: Action)
    requires Paired(S.budget) && AtMostFired(s) && May(S, s, a)
    ensures AtMostFired(Act(S, s, a))
  {
    var s' := Act(S, s, a);
    match a
    case Wait =>
    case Judge(run) => OtherAtMostFired(s, s', GateEvent(run.node, S.world.judge(s.rec.clock, run), run.escalatedTo));
    case Announce(e) => OtherAtMostFired(s, s', e);
    case Refuse(n, reason, score) => OtherAtMostFired(s, s', GateFail(n, ROUTER_GATE, reason, score, None, None));
    case Work(nextSeq, request) => WorkAtMostFired(S, s, nextSeq, request);
    case Replay(_, n, row) => SpendAtMostFired(S, s, n, Cached(row));
    case Recheck(role) => OneFires(S.budget, s.meter, S.team, role, Llm, 0, 0);
    case Hand(from, to, c, router) => OtherAtMostFired(s, s', HandoffAccept(from, S.world.contractHash(c), to));
    case Settle(router, attempts) =>
    case Keep(durable, concerns) =>
  }

  lemma {:induction false} PathAtMostFired(S: Session, x: RunState, actions: seq<Action>, y: RunState)
    requires Paired(S.budget) && AtMostFired(x) && Path(S, x, actions, y)
    ensures AtMostFired(y)
    decreases |actions|
  {
    if actions != [] {
      ActAtMostFired(S, x, actions[0]);
      PathAtMostFired(S, Act(S, x, actions[0]), actions[1..], y);
    }
  }

  lemma {:induction false} ThreeScopes(fired: set<Scope>)
    ensures |fired| <= 3
  {
    var all := {SessionScope, TeamScope, AgentScope};
    forall scope: Scope | scope in fired ensures scope in all {
      match scope
      case SessionScope =>
      case TeamScope =>
      case AgentScope =>
    }
    SmallerSet(fired, all);
  }

  lemma {:induction false} SmallerSet<T>(a: set<T>, b: set<T>)
    requires a <= b
    ensures |a| <= |b|
    decreases |a|
  {
    if a != {} {
      var x :| x in a;
      SmallerSet(a - {x}, b - {x});
    }
  }

  /** No run has more warnings on record than scopes have fired, which are three at most. */
  lemma {:induction false} WarningsAtMostFired(S: Session)
    requires Paired(S.budget)
    ensures AtMostFired(Run(S).0) && WarnsIn(Run(S).0.rec.trace) <= 3
  {
    NoWarnsAdded([], Opening(S));
    assert [] + Opening(S) == Opening(S);
    RunActs(S);
    var actions :| Path(S, InitState(S), actions, Run(S).0);
    PathAtMostFired(S, InitState(S), actions, Run(S).0);
    ThreeScopes(Run(S).0.meter.fired);
  }
}
