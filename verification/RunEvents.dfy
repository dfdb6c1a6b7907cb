/**
 * What the events of a run tell, in every run: roles, models and spends are the plan's and
 * the ledger's, the gate events are the answers the gates gave, the accepted handoffs are
 * those of the router, and the minimum score is that of the gate events.
 */
module RunEvents {
  import opened Core
  import opened Domain
  import opened Router
  import opened Budget
  import opened RunModel
  import opened Readers
  import opened RunGates
  import opened RunActions

  // ---------------------------------------------------------------- what a trace adds up to

  function Plus(a: TokenTotals, b: TokenTotals): TokenTotals {
    TokenTotals(a.tokensIn + b.tokensIn, a.tokensOut + b.tokensOut)
  }

  /** The tokens an event charges to a role: those of an llm.call of a node that has it. */
  function ChargeOf(S: Session, e: Event, role: AgentRole): TokenTotals {
    if e.LlmCall? && e.node in S.stages && S.stages[e.node].profile.role == role
    then TokenTotals(e.tokensIn, e.tokensOut) else TokenTotals(0, 0)
  }

  /** What the events of a trace charge to a role, by column. */
  function RoleTokens(S: Session, es: seq<Event>, role: AgentRole): TokenTotals {
    if es == [] then TokenTotals(0, 0)
    else Plus(RoleTokens(S, es[..|es| - 1], role), ChargeOf(S, es[|es| - 1], role))
  }

  /** The accepted handoffs on record, in order. */
  function HandoffsIn(es: seq<Event>): seq<Handoff> {
    if es == [] then [] else
      var e := es[|es| - 1];
      HandoffsIn(es[..|es| - 1]) + if e.HandoffAccept? then [(e.node, e.to)] else []
  }

  /** The contract hash of the last accepted handoff to a node. */
  function LastHash(es: seq<Event>, to: NodeId): Option<Digest> {
    if es == [] then None else
      var e := es[|es| - 1];
      if e.HandoffAccept? && e.to == to then Some(e.contractHash) else LastHash(es[..|es| - 1], to)
  }

  lemma {:induction false} TotalsSnoc(S: Session, es: seq<Event>, e: Event)
    ensures TraceTokens(es + [e]) == TraceTokens(es) + EventTokens(e)
    ensures HandoffsIn(es + [e]) == HandoffsIn(es) + if e.HandoffAccept? then [(e.node, e.to)] else []
    ensures forall role :: RoleTokens(S, es + [e], role) == Plus(RoleTokens(S, es, role), ChargeOf(S, e, role))
    ensures forall to :: LastHash(es + [e], to)
               == if e.HandoffAccept? && e.to == to then Some(e.contractHash) else LastHash(es, to)
  {
    assert (es + [e])[..|es|] == es;
  }

  // ---------------------------------------------------------------- the ledger

  /** The ledger holds exactly the tokens of the llm.call events, by role and column, all under the session's team. */
  ghost predicate LedgerTold(S: Session, es: seq<Event>, m: Meter) {
    && CachesAgree(m) && TraceTokens(es) == TotalOf(m.rows)
    && (forall role :: RoleTokens(S, es, role) == SumRole(m.rows, role))
    && forall i | 0 <= i < |m.rows| :: m.rows[i].kind == Llm && m.rows[i].team == S.team
  }

  /** A metering call of a node, after its llm.call event. */
  lemma {:induction false} MeteringTold(S: Session, es: seq<Event>, es': seq<Event>, m: Meter, role: AgentRole,
                                        tokensIn: nat, tokensOut: nat)
    requires LedgerTold(S, es, m)
    requires TraceTokens(es') == TraceTokens(es) + tokensIn + tokensOut
    requires forall r :: RoleTokens(S, es', r)
               == if r == role then Plus(RoleTokens(S, es, r), TokenTotals(tokensIn, tokensOut))
                  else RoleTokens(S, es, r)
    ensures LedgerTold(S, es', MeterCall(S.budget, m, S.team, role, Llm, tokensIn, tokensOut).0)
  {
    var m' := MeterCall(S.budget, m, S.team, role, Llm, tokensIn, tokensOut).0;
    var row := MeterRow(MaxSeq(m.rows) + 1, S.team, role, Llm, tokensIn, tokensOut);
    assert m'.rows == m.rows + [row];
    ChargeKeepsCaches(m, S.team, role, Llm, tokensIn, tokensOut);
    TotalAppend(m.rows, row);
    forall r ensures RoleTokens(S, es', r) == SumRole(m'.rows, r) {
      RoleCharged(S, es, es', m.rows, row, r);
    }
  }

  lemma {:induction false} RoleCharged(S: Session, es: seq<Event>, es': seq<Event>, rows: seq<MeterRow>, row: MeterRow,
                                       role: AgentRole)
    requires RoleTokens(S, es, role) == SumRole(rows, role)
    requires RoleTokens(S, es', role) == if role == row.role
               then Plus(RoleTokens(S, es, role), TokenTotals(row.tokensIn, row.tokensOut)) else RoleTokens(S, es, role)
    ensures RoleTokens(S, es', role) == SumRole(rows + [row], role)
  {
    SumRoleAppend(rows, row, role);
  }

  /** The budget state of a role after these events. */
  function StateAfter(S: Session, es: seq<Event>, role: AgentRole): BudgetState {
    var t := RoleTokens(S, es, role);
    StateOf(S.budget, TraceTokens(es), TraceTokens(es), role, t.tokensIn + t.tokensOut)
  }

  /** The snapshot is the budget state that the events so far add up to. */
  lemma {:induction false} SnapshotTold(S: Session, es: seq<Event>, m: Meter, role: AgentRole)
    requires LedgerTold(S, es, m)
    ensures Snapshot(S.budget, m, role) == StateAfter(S, es, role)
  {
    assert RoleTokens(S, es, role) == SumRole(m.rows, role);
    RoleTotalIsSum(m.rows, role);
    if role !in m.agentSpent {
      NoRowsNoSum(m.rows, role);
    }
  }

  // ---------------------------------------------------------------- single events

  /** The last of these events is an llm.call, of a node with this role. */
  ghost predicate JustCalled(S: Session, es: seq<Event>, role: AgentRole) {
    && es != [] && es[|es| - 1].LlmCall? && es[|es| - 1].node in S.stages
    && S.stages[es[|es| - 1].node].profile.role == role
  }

  /** A warning's numbers: the scope's spend after these events, and what is left up to its suspend line. */
  ghost predicate WarnTells(S: Session, es: seq<Event>, role: AgentRole, scope: Scope, spent: nat, remaining: nat) {
    && JustCalled(S, es, role)
    && spent == ScopeSpent(StateAfter(S, es, role), scope) && remaining > 0
    && ScopeSuspendLimit(StateAfter(S, es, role), scope) == Some(spent + remaining)
    && LineReached(WarnLine(S.budget, role, scope), spent)
  }

  /** What an event says is what the plan and the events before it say. */
  ghost predicate EventTells(S: Session, before: seq<Event>, e: Event) {
    match e
    case NodeStart(n, role, _) => n in S.stages && role == S.stages[n].profile.role
    case NodeStop(n, role, _, _) => n in S.stages && role == S.stages[n].profile.role
    case LlmCall(n, _, model, _, _, _) => n in S.stages && model == S.stages[n].profile.model
    case ToolCall(n, _, _, _, actor) => n in S.stages && actor == "executor"
    case HandoffRequest(n, _) => n in S.stages
    case HandoffAccept(n, hash, _) => before != [] && before[|before| - 1] == HandoffRequest(n, hash)
    case BudgetEvent(SuspendLevel, spent, remaining) => spent == TraceTokens(before) && remaining == 0
    case BudgetEvent(WarnLevel, spent, remaining) =>
      exists role, scope :: WarnTells(S, before, role, scope, spent, remaining)
    case SessionOpen(id, seed, budget) => before == [] && id == S.sessionId && seed == S.seed
      && budget == S.budgetTokens
    case PlanCompiled(hash, count) => |before| == 1 && hash == S.planHash && count == |S.stages|
    case SessionClose(id, _) => id == S.sessionId
    case GatePass(n, _, _) => n in S.stages
    case GateFail(n, _, _, _, _, _) => n in S.stages
    case TraceSeal(_) => false
  }

  ghost predicate EventsTell(S: Session, es: seq<Event>) {
    forall x | 0 <= x < |es| :: EventTells(S, es[..x], es[x])
  }

  lemma {:induction false} TellsSnoc(S: Session, es: seq<Event>, e: Event)
    requires EventsTell(S, es) && EventTells(S, es, e)
    ensures EventsTell(S, es + [e])
  {
    var es' := es + [e];
    forall x | 0 <= x < |es'| ensures EventTells(S, es'[..x], es'[x]) {
      if x < |es| {
        assert es'[..x] == es[..x];
      } else {
        assert es'[..x] == es;
      }
    }
  }

  // ---------------------------------------------------------------- answers and scores

  /** The event of an answer: pass or fail, gate, score, reason, retries left and escalation as answered. */
  ghost predicate RecordsAnswer(e: Event, q: GateAsk) {
    && IsJudgment(e) && e.node == q.run.node && e.gateId == q.answer.gateId
    && match q.answer.verdict
       case Pass(score) => e.GatePass? && e.score == score
       case Retry(reason, score, left) =>
         && e.GateFail? && e.reason == reason && e.score == score && e.attemptsLeft == Some(left)
         && e.escalatedTo == q.run.escalatedTo
       case RejectVerdict(reason, score) =>
         && e.GateFail? && e.reason == reason && e.score == score && e.attemptsLeft.None?
         && e.escalatedTo == q.run.escalatedTo
  }

  /** The runner's own fail, by the cache sentinel or the router. */
  ghost predicate OwnFail(e: Event) {
    && e.GateFail? && (e.gateId == Id("cache") || e.gateId == Id("router.v1"))
    && e.attemptsLeft.None? && e.escalatedTo.None?
  }

  /** A question, its place in the log, and the budget state it was asked with. */
  ghost predicate AskTold(S: Session, es: seq<Event>, q: GateAsk) {
    && q.at < |es| && RecordsAnswer(es[q.at], q)
    && q.answer == S.world.judge(q.asked, q.run)
    && q.run.node in S.stages
    && q.run.budgetState == StateAfter(S, es[..q.at], S.stages[q.run.node].profile.role)
  }

  /** The questions are on record in order, and every gate event is one of them or the runner's own. */
  ghost predicate AsksTold(S: Session, es: seq<Event>, asks: seq<GateAsk>) {
    && (forall i | 0 <= i < |asks| :: AskTold(S, es, asks[i]))
    && (forall i, j | 0 <= i < j < |asks| :: asks[i].at < asks[j].at)
    && forall x | 0 <= x < |es| && IsJudgment(es[x]) :: OwnFail(es[x]) || exists i :: 0 <= i < |asks| && asks[i].at == x
  }

  lemma {:induction false} AskStaysTold(S: Session, es: seq<Event>, e: Event, q: GateAsk)
    requires AskTold(S, es, q)
    ensures AskTold(S, es + [e], q)
  {
    assert (es + [e])[..q.at] == es[..q.at];
  }

  /** An event that is no gate's answer. */
  lemma {:induction false} AsksStayTold(S: Session, es: seq<Event>, e: Event, asks: seq<GateAsk>)
    requires AsksTold(S, es, asks) && (IsJudgment(e) ==> OwnFail(e))
    ensures AsksTold(S, es + [e], asks)
  {
    forall i | 0 <= i < |asks| ensures AskTold(S, es + [e], asks[i]) {
      AskStaysTold(S, es, e, asks[i]);
    }
  }

  lemma {:induction false} AsksNextTold(S: Session, es: seq<Event>, e: Event, asks: seq<GateAsk>, q: GateAsk)
    requires AsksTold(S, es, asks) && q.at == |es| && AskTold(S, es + [e], q)
    ensures AsksTold(S, es + [e], asks + [q])
  {
    var es', asks' := es + [e], asks + [q];
    forall i | 0 <= i < |asks| ensures AskTold(S, es', asks[i]) {
      AskStaysTold(S, es, e, asks[i]);
    }
    forall x | 0 <= x < |es'| && IsJudgment(es'[x])
      ensures OwnFail(es'[x]) || exists i :: 0 <= i < |asks'| && asks'[i].at == x
    {
      if x == |es| {
        assert asks'[|asks|].at == x;
      } else if i :| 0 <= i < |asks| && asks[i].at == x {
        assert asks'[i].at == x;
      }
    }
  }

  /** The minimum of the scores of the gate events, if there are any. */
  ghost predicate LowestScore(es: seq<Event>, m: Option<real>) {
    var js := Judgments(es);
    && (m.None? <==> js == [])
    && (m.Some? ==> (forall i | 0 <= i < |js| :: m.value <= js[i].score) && exists i ::
       0 <= i < |js| && js[i].score == m.value)
  }

  lemma {:induction false} LowestStays(es: seq<Event>, e: Event, m: Option<real>)
    requires LowestScore(es, m) && !IsJudgment(e)
    ensures LowestScore(es + [e], m)
  {
    JudgmentsSnoc(es, e);
  }

  lemma {:induction false} LowestNext(es: seq<Event>, e: Event, r: Recorder)
    requires LowestScore(es, r.minScore) && IsJudgment(e)
    ensures LowestScore(es + [e], RecordScore(r, e.score).minScore)
  {
    JudgmentsSnoc(es, e);
    var js, js' := Judgments(es), Judgments(es + [e]);
    var m := RecordScore(r, e.score).minScore.value;
    assert js'[|js|].score == e.score;
    if m != e.score {
      var i :| 0 <= i < |js| && js[i].score == m;
      assert js'[i] == js[i];
    }
  }

  /** An executor call: right after a poll of the interrupt flag answered no, with the stage's role and model. */
  ghost predicate CallTold(S: Session, c: ExecCall) {
    && c.asked > 0 && !S.world.interrupted(c.asked - 1)
    && c.result == S.world.execute(c.asked, c.request)
    && c.request.node in S.stages && c.request.task == S.task
    && c.request.role == S.stages[c.request.node].profile.role
    && c.request.model == S.stages[c.request.node].profile.model
  }

  ghost predicate CallsTold(S: Session, calls: seq<ExecCall>) {
    forall i | 0 <= i < |calls| :: CallTold(S, calls[i])
  }

  /** The accepted handoffs are on record in order, each routed contract under its hash. */
  ghost predicate HandoffsTold(S: Session, es: seq<Event>, q: Routing) {
    && HandoffsIn(es) == q.accepted
    && (forall to :: to in q.routedIn <==> LastHash(es, to).Some?)
    && forall to | to in q.routedIn :: LastHash(es, to) == Some(S.world.contractHash(q.routedIn[to]))
  }

  lemma {:induction false} HandoffsStayTold(S: Session, es: seq<Event>, e: Event, q: Routing)
    requires HandoffsTold(S, es, q) && !e.HandoffAccept?
    ensures HandoffsTold(S, es + [e], q)
  {
    TotalsSnoc(S, es, e);
  }

  lemma {:induction false} AcceptTold(S: Session, es: seq<Event>, q: Routing, from: NodeId, to: NodeId,
                                      c: HandoffContract, router: RouterState)
    requires HandoffsTold(S, es, q)
    ensures HandoffsTold(S, es + [HandoffAccept(from, S.world.contractHash(c), to)],
                         Routing(router, q.routedIn[to := c], q.accepted + [(from, to)]))
  {
    TotalsSnoc(S, es, HandoffAccept(from, S.world.contractHash(c), to));
  }

  // ---------------------------------------------------------------- every action keeps it

  ghost predicate LogTold(S: Session, s: RunState) {
    && LedgerTold(S, s.rec.trace, s.meter)
    && EventsTell(S, s.rec.trace)
    && AsksTold(S, s.rec.trace, s.rec.asks)
    && LowestScore(s.rec.trace, s.rec.minScore)
    && HandoffsTold(S, s.rec.trace, s.routing)
    && CallsTold(S, s.rec.calls)
  }

  predicate SameHandoffs(q: Routing, q': Routing) {
    q'.accepted == q.accepted && q'.routedIn == q.routedIn
  }

  /** Apart from the trace nothing changed that the log tells of. */
  ghost predicate SameBut(s: RunState, s': RunState) {
    && s'.meter == s.meter && SameHandoffs(s.routing, s'.routing)
    && s'.rec.asks == s.rec.asks && s'.rec.minScore == s.rec.minScore && s'.rec.calls == s.rec.calls
  }

  lemma {:induction false} SilentTold(S: Session, s: RunState, s': RunState)
    requires LogTold(S, s) && SameBut(s, s') && s'.rec.trace == s.rec.trace
    ensures LogTold(S, s')
  {
  }

  lemma {:induction false} LedgerStays(S: Session, es: seq<Event>, e: Event, m: Meter)
    requires LedgerTold(S, es, m) && !e.LlmCall?
    ensures LedgerTold(S, es + [e], m)
  {
    TotalsSnoc(S, es, e);
  }

  /** An event that is no judgment, no llm.call and no accept. */
  lemma {:induction false} NeutralTold(S: Session, s: RunState, s': RunState, e: Event)
    requires LogTold(S, s) && SameBut(s, s') && s'.rec.trace == s.rec.trace + [e]
    requires !IsJudgment(e) && !e.LlmCall? && !e.HandoffAccept? && EventTells(S, s.rec.trace, e)
    ensures LogTold(S, s')
  {
    LedgerStays(S, s.rec.trace, e, s.meter);
    TellsSnoc(S, s.rec.trace, e);
    AsksStayTold(S, s.rec.trace, e, s.rec.asks);
    LowestStays(s.rec.trace, e, s.rec.minScore);
    HandoffsStayTold(S, s.rec.trace, e, s.routing);
  }

  lemma {:induction false} ToolsTold(S: Session, s: RunState, n: NodeId, uses: seq<ToolUse>)
    requires LogTold(S, s) && n in S.stages
    ensures LogTold(S, s.(rec := EmitTools(s.rec, n, uses)))
    decreases |uses|
  {
    if uses != [] {
      var s1 := s.(rec := Emit(s.rec, ToolEvent(n, uses[0])));
      NeutralTold(S, s, s1, ToolEvent(n, uses[0]));
      ToolsTold(S, s1, n, uses[1..]);
    }
  }

  lemma {:induction false} CalledTold(S: Session, s: RunState, s': RunState, c: ExecCall)
    requires LogTold(S, s) && CallTold(S, c)
    requires s'.meter == s.meter && SameHandoffs(s.routing, s'.routing) && s'.rec.trace == s.rec.trace
    requires s'.rec.asks == s.rec.asks && s'.rec.minScore == s.rec.minScore && s'.rec.calls == s.rec.calls + [c]
    ensures LogTold(S, s')
  {
  }

  lemma {:induction false} AnswerRecorded(S: Session, s: RunState, run: GateRun) returns (q: GateAsk, e: Event)
    requires run.node in S.stages && LedgerTold(S, s.rec.trace, s.meter)
    requires run.budgetState == Snapshot(S.budget, s.meter, S.stages[run.node].profile.role)
    ensures q.at == |s.rec.trace| && AskTold(S, s.rec.trace + [e], q) && IsJudgment(e) && e.node == run.node
    ensures var r' := AskGate(S, s.rec, run).0;
            && r'.trace == s.rec.trace + [e] && r'.asks == s.rec.asks + [q] && r'.calls == s.rec.calls
            && r'.minScore == RecordScore(s.rec, e.score).minScore
  {
    var a := S.world.judge(s.rec.clock, run);
    q := GateAsk(|s.rec.trace|, s.rec.clock, run, a);
    e := GateEvent(run.node, a, run.escalatedTo);
    var es := s.rec.trace;
    assert (es + [e])[..|es|] == es;
    SnapshotTold(S, es, s.meter, S.stages[run.node].profile.role);
  }

  lemma {:induction false} JudgeTold(S: Session, s: RunState, run: GateRun)
    requires LogTold(S, s) && May(S, s, Judge(run))
    ensures LogTold(S, Act(S, s, Judge(run)))
  {
    var q, e := AnswerRecorded(S, s, run);
    AnsweredTold(S, s, Act(S, s, Judge(run)), q, e);
  }

  lemma {:induction false} AnsweredTold(S: Session, s: RunState, s': RunState, q: GateAsk, e: Event)
    requires LogTold(S, s) && IsJudgment(e) && EventTells(S, s.rec.trace, e)
    requires q.at == |s.rec.trace| && AskTold(S, s.rec.trace + [e], q)
    requires s'.meter == s.meter && SameHandoffs(s.routing, s'.routing) && s'.rec.trace == s.rec.trace + [e]
    requires s'.rec.asks == s.rec.asks + [q] && s'.rec.calls == s.rec.calls
    requires s'.rec.minScore == RecordScore(s.rec, e.score).minScore
    ensures LogTold(S, s')
  {
    LedgerStays(S, s.rec.trace, e, s.meter);
    TellsSnoc(S, s.rec.trace, e);
    AsksNextTold(S, s.rec.trace, e, s.rec.asks, q);
    LowestNext(s.rec.trace, e, s.rec);
    HandoffsStayTold(S, s.rec.trace, e, s.routing);
  }

  lemma {:induction false} RefuseTold(S: Session, s: RunState, n: NodeId, gateId: Id, reason: ReasonCode, score: real)
    requires LogTold(S, s) && n in S.stages && (gateId == Id("cache") || gateId == Id("router.v1"))
    ensures LogTold(S, RefuseOn(s, n, gateId, reason, score))
  {
    OwnFailTold(S, s, RefuseOn(s, n, gateId, reason, score), GateFail(n, gateId, reason, score, None, None));
  }

  lemma {:induction false} OwnFailTold(S: Session, s: RunState, s': RunState, e: Event)
    requires LogTold(S, s) && OwnFail(e) && EventTells(S, s.rec.trace, e)
    requires s'.meter == s.meter && SameHandoffs(s.routing, s'.routing) && s'.rec.trace == s.rec.trace + [e]
    requires s'.rec.asks == s.rec.asks && s'.rec.calls == s.rec.calls
    requires s'.rec.minScore == RecordScore(s.rec, e.score).minScore
    ensures LogTold(S, s')
  {
    LedgerStays(S, s.rec.trace, e, s.meter);
    TellsSnoc(S, s.rec.trace, e);
    AsksStayTold(S, s.rec.trace, e, s.rec.asks);
    LowestNext(s.rec.trace, e, s.rec);
    HandoffsStayTold(S, s.rec.trace, e, s.routing);
  }

  lemma {:induction false} HandTold(S: Session, s: RunState, from: NodeId, to: NodeId, c: HandoffContract,
                                    router: RouterState)
    requires LogTold(S, s) && May(S, s, Hand(from, to, c, router))
    ensures LogTold(S, Act(S, s, Hand(from, to, c, router)))
  {
    var e := HandoffAccept(from, S.world.contractHash(c), to);
    LedgerStays(S, s.rec.trace, e, s.meter);
    TellsSnoc(S, s.rec.trace, e);
    AsksStayTold(S, s.rec.trace, e, s.rec.asks);
    LowestStays(s.rec.trace, e, s.rec.minScore);
    AcceptTold(S, s.rec.trace, s.routing, from, to, c, router);
  }

  // ---------------------------------------------------------------- metering

  lemma {:induction false} CallCharged(S: Session, es: seq<Event>, e: Event, m: Meter, role: AgentRole)
    requires LedgerTold(S, es, m) && e.LlmCall? && e.node in S.stages && S.stages[e.node].profile.role == role
    ensures LedgerTold(S, es + [e], MeterCall(S.budget, m, S.team, role, Llm, e.tokensIn, e.tokensOut).0)
  {
    TotalsSnoc(S, es, e);
    MeteringTold(S, es, es + [e], m, role, e.tokensIn, e.tokensOut);
  }

  /** The llm.call event and the charge. */
  lemma {:induction false} ChargedTold(S: Session, s: RunState, s': RunState, e: Event, role: AgentRole)
    requires LogTold(S, s) && e.LlmCall? && EventTells(S, s.rec.trace, e) && S.stages[e.node].profile.role == role
    requires s'.meter == MeterCall(S.budget, s.meter, S.team, role, Llm, e.tokensIn, e.tokensOut).0
    requires SameHandoffs(s.routing, s'.routing) && s'.rec.trace == s.rec.trace + [e]
    requires s'.rec.asks == s.rec.asks && s'.rec.calls == s.rec.calls && s'.rec.minScore == s.rec.minScore
    ensures LogTold(S, s')
  {
    HandoffsStayTold(S, s.rec.trace, e, s.routing);
    CallCharged(S, s.rec.trace, e, s.meter, role);
    TellsSnoc(S, s.rec.trace, e);
    AsksStayTold(S, s.rec.trace, e, s.rec.asks);
    LowestStays(s.rec.trace, e, s.rec.minScore);
  }

  /** The numbers of a warning are the scope's after the call. */
  lemma {:induction false} WarningTold(S: Session, es: seq<Event>, m: Meter, role: AgentRole, v: SpendVerdict,
                                       scope: Scope)
    requires LedgerTold(S, es, m) && JustCalled(S, es, role) && WarnsOf(v, S.budget, m, role, scope)
    requires LineReached(WarnLine(S.budget, role, scope), v.spent)
    ensures EventTells(S, es, BudgetEvent(WarnLevel, v.spent, v.remaining.value))
  {
    SnapshotTold(S, es, m, role);
    assert WarnTells(S, es, role, scope, v.spent, v.remaining.value);
  }

  /** The parts of a metered output. */
  lemma {:induction false} SpendParts(S: Session, s: RunState, n: NodeId, o: NodeOutput)
    returns (e: Event, v: SpendVerdict, s1: RunState)
    requires n in S.stages
    ensures e == LlmCall(n, Provider(o), S.stages[n].profile.model, TokensIn(o), TokensOut(o), Latency(o))
    ensures (s1.meter, v) == MeterCall(S.budget, s.meter, S.team, S.stages[n].profile.role, Llm, TokensIn(o),
                                       TokensOut(o))
    ensures s1.rec.trace == s.rec.trace + [e] && s1.routing == s.routing
    ensures s1.rec.asks == s.rec.asks && s1.rec.calls == s.rec.calls && s1.rec.minScore == s.rec.minScore
    ensures SpendOn(S, s, S.stages[n], n, o)
            == if v.SpendWarn? then s1.(rec := Emit(s1.rec, BudgetEvent(WarnLevel, v.spent,
                                      if v.remaining.Some? then v.remaining.value else 0))) else s1
  {
    e := LlmCall(n, Provider(o), S.stages[n].profile.model, TokensIn(o), TokensOut(o), Latency(o));
    var (m, v1) := MeterCall(S.budget, s.meter, S.team, S.stages[n].profile.role, Llm, TokensIn(o), TokensOut(o));
    v := v1;
    s1 := s.(meter := m, rec := NoteVerdict(Emit(s.rec, e), v));
  }

  lemma {:induction false} SpendTold(S: Session, s: RunState, n: NodeId, o: NodeOutput)
    requires Paired(S.budget) && LogTold(S, s) && n in S.stages
    ensures LogTold(S, SpendOn(S, s, S.stages[n], n, o))
  {
    var role := S.stages[n].profile.role;
    var e, v, s1 := SpendParts(S, s, n, o);
    ChargedTold(S, s, s1, e, role);
    if v.SpendWarn? {
      var scope := WarnedScope(S.budget, s.meter, S.team, role, Llm, TokensIn(o), TokensOut(o));
      WarningTold(S, s1.rec.trace, s1.meter, role, v, scope);
      var e2 := BudgetEvent(WarnLevel, v.spent, v.remaining.value);
      NeutralTold(S, s1, s1.(rec := Emit(s1.rec, e2)), e2);
    }
  }

  /** A call of the executor up to its answer. */
  lemma {:induction false} AnswerTold(S: Session, s: RunState, nextSeq: nat, request: StageRequest)
    requires LogTold(S, s) && May(S, s, Work(nextSeq, request))
    ensures LogTold(S, s.(rec := AskExecutor(S, s.rec, nextSeq, request).0))
  {
    var uses := S.world.tools(s.rec.clock, request);
    ToolsTold(S, s, request.node, uses);
    var s1 := s.(rec := EmitTools(s.rec, request.node, uses));
    var c := ExecCall(nextSeq, s.rec.clock, request, S.world.execute(s.rec.clock, request), |s1.rec.trace|);
    assert CallTold(S, c);
    CalledTold(S, s1, s.(rec := AskExecutor(S, s.rec, nextSeq, request).0), c);
  }

  lemma {:induction false} WorkTold(S: Session, s: RunState, nextSeq: nat, request: StageRequest)
    requires Paired(S.budget) && LogTold(S, s) && May(S, s, Work(nextSeq, request))
    ensures LogTold(S, Act(S, s, Work(nextSeq, request)))
  {
    AnswerTold(S, s, nextSeq, request);
    var (r, result) := AskExecutor(S, s.rec, nextSeq, request);
    var s1, s2 := s.(rec := r), s.(rec := Tick(r));
    SilentTold(S, s1, s2);
    if result.Finished? {
      RefuseTold(S, s2, request.node, CACHE_GATE, GATE_REJECT, 0.0);
      SpendTold(S, s2, request.node, Live(result.report));
    }
  }

  lemma {:induction false} RecheckTold(S: Session, s: RunState, role: AgentRole)
    requires LogTold(S, s)
    ensures LogTold(S, Act(S, s, Recheck(role)))
  {
    MeteringTold(S, s.rec.trace, s.rec.trace, s.meter, role, 0, 0);
  }

  lemma {:induction false} AnnounceTold(S: Session, s: RunState, e: Event)
    requires LogTold(S, s) && PlainEvent(S, s.meter, e)
    ensures LogTold(S, Act(S, s, Announce(e)))
  {
    NeutralTold(S, s, Act(S, s, Announce(e)), e);
  }

  lemma {:induction false} ActTold(S: Session, s: RunState, a: Action)
    requires Paired(S.budget) && LogTold(S, s) && May(S, s, a)
    ensures LogTold(S, Act(S, s, a))
  {
    match a
    case Wait => SilentTold(S, s, Act(S, s, a));
    case Judge(run) => JudgeTold(S, s, run);
    case Announce(e) => AnnounceTold(S, s, e);
    case Refuse(n, reason, score) => RefuseTold(S, s, n, ROUTER_GATE, reason, score);
    case Work(nextSeq, request) => WorkTold(S, s, nextSeq, request);
    case Replay(_, n, row) => SpendTold(S, s, n, Cached(row));
    case Recheck(role) => RecheckTold(S, s, role);
    case Hand(from, to, c, router) => HandTold(S, s, from, to, c, router);
    case Settle(router, attempts) => SilentTold(S, s, Act(S, s, a));
    case Keep(durable, concerns) => SilentTold(S, s, Act(S, s, a));
  }

  lemma {:induction false} PathTold(S: Session, x: RunState, actions: seq<Action>, y: RunState)
    requires Paired(S.budget) && LogTold(S, x) && Path(S, x, actions, y)
    ensures LogTold(S, y)
    decreases |actions|
  {
    if actions != [] {
      ActTold(S, x, actions[0]);
      PathTold(S, Act(S, x, actions[0]), actions[1..], y);
    }
  }

  // ---------------------------------------------------------------- every run

  lemma {:induction false} NothingTold(S: Session)
    ensures LogTold(S, InitState(S).(rec := InitState(S).rec.(trace := [])))
  {
  }

  lemma {:induction false} OpeningTold(S: Session)
    ensures LogTold(S, InitState(S))
  {
    var e, f := SessionOpen(S.sessionId, S.seed, S.budgetTokens), PlanCompiled(S.planHash, |S.stages|);
    var r := InitState(S).rec;
    var s0 := InitState(S).(rec := r.(trace := []));
    var s1 := InitState(S).(rec := r.(trace := [e]));
    NothingTold(S);
    NeutralTold(S, s0, s1, e);
    NeutralTold(S, s1, InitState(S), f);
  }

  lemma {:induction false} LogOfRun(S: Session)
    requires Paired(S.budget)
    ensures LogTold(S, Run(S).0)
  {
    OpeningTold(S);
    RunActs(S);
    var actions :| Path(S, InitState(S), actions, Run(S).0);
    PathTold(S, InitState(S), actions, Run(S).0);
  }

  /**
   * Every event of every run says what the plan and the events before it say: roles, models
   * and senders are the plan's, a suspend event carries the tokens of the llm.calls so far, and
   * a warning stands right behind the llm.call that caused it, with the spend of its scope and
   * what was left up to that scope's suspend line.
   */
  lemma {:induction false} EveryEventTells(S: Session)
    requires Paired(S.budget)
    ensures EventsTell(S, Run(S).0.rec.trace)
  {
    LogOfRun(S);
  }

  /** In every run the ledger holds, role by role and column by column, the tokens of the llm.call events. */
  lemma {:induction false} LedgerMatchesEvents(S: Session)
    requires Paired(S.budget)
    ensures var s := Run(S).0; LedgerTold(S, s.rec.trace, s.meter)
  {
    LogOfRun(S);
  }

  /**
   * The gate events of a run are the answers its gates gave, field by field and in order, but
   * for fails the runner records itself; each gate was shown the budget state that the events
   * before add up to; and the minimum score is the lowest on record.
   */
  lemma {:induction false} GateEventsAreAnswers(S: Session)
    requires Paired(S.budget)
    ensures var r := Run(S).0.rec; AsksTold(S, r.trace, r.asks) && LowestScore(r.trace, r.minScore)
  {
    LogOfRun(S);
  }

  /**
   * The handoff.accept events of a run are the accepted handoffs, in order, and the last one to
   * each node carries the hash of the contract that is routed into it.
   */
  lemma {:induction false} AcceptsOnRecord(S: Session)
    requires Paired(S.budget)
    ensures var s := Run(S).0; HandoffsTold(S, s.rec.trace, s.routing)
  {
    LogOfRun(S);
  }

  /** Every executor call of a run was made right after the interrupt flag was found down. */
  lemma {:induction false} CallsAreTold(S: Session)
    requires Paired(S.budget)
    ensures CallsTold(S, Run(S).0.rec.calls)
  {
    LogOfRun(S);
  }
}
