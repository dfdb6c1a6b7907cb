/**
 * What the executor's work leaves in the log: every call stands there with all its tool
 * events, in order, and right behind them the llm.call of its report or the objection of the
 * cache sentinel; and no tool.call or llm.call has another origin, but for replayed rows.
 */
module RunWork {
  import opened Core
  import opened Domain
  import opened Budget
  import opened RunModel
  import opened RunActions

  // ---------------------------------------------------------------- the place of a call

  /** The trace place at which the tool events of a call begin; they end before its own place. */
  function Begin(S: Session, c: ExecCall): int {
    c.at - |S.world.tools(c.asked, c.request)|
  }

  /** The tool.call of a use of a tool, with the executor as its actor. */
  ghost predicate Used(e: Event, c: ExecCall, use: ToolUse) {
    && e.ToolCall? && e.node == c.request.node && e.actor == "executor"
    && e.tool == use.tool && e.ok == use.ok && e.latency == use.latency
  }

  /** The llm.call of a report, with the numbers it gives. */
  ghost predicate Metered(e: Event, c: ExecCall, report: Report) {
    && e.LlmCall? && e.node == c.request.node && e.model == c.request.model
    && e.provider == report.provider && e.latency == report.latency
    && e.tokensIn == report.tokensIn && e.tokensOut == report.tokensOut
  }

  /** The objection of the cache sentinel. */
  ghost predicate Objected(e: Event, c: ExecCall) {
    && e.GateFail? && e.node == c.request.node && e.gateId == Id("cache") && e.reason == GATE_REJECT && e.score == 0.0
  }

  /** A report is metered unless the sentinel, asked right after the call, objects to its prompt. */
  ghost predicate Answered(S: Session, e: Event, c: ExecCall)
    requires c.result.Finished?
  {
    if S.world.violates(c.asked + 1, c.result.report.promptHash) then Objected(e, c)
    else Metered(e, c, c.result.report)
  }

  ghost predicate CallLogged(S: Session, es: seq<Event>, c: ExecCall) {
    var uses := S.world.tools(c.asked, c.request);
    && 0 <= Begin(S, c) && c.at <= |es|
    && (forall i | 0 <= i < |uses| :: Used(es[Begin(S, c) + i], c, uses[i]))
    && (c.result.Finished? ==> c.at < |es| && Answered(S, es[c.at], c))
  }

  /** The llm.call of a replayed row, with the numbers the row gives. */
  ghost predicate OfRow(S: Session, e: Event) {
    exists k: nat :: CachedRow(S, k).Some? && RowMetered(e, CachedRow(S, k).value)
  }

  ghost predicate RowMetered(e: Event, row: CachedExecution) {
    && e.LlmCall? && e.node == row.envelope.from && e.provider == row.provider && e.latency == row.latency
    && e.tokensIn == row.tokensIn && e.tokensOut == row.tokensOut
  }

  /** The calls stand in the log one behind the other, and every tool.call and llm.call is accounted for. */
  ghost predicate WorkLogged(S: Session, es: seq<Event>, calls: seq<ExecCall>) {
    && (forall i | 0 <= i < |calls| :: CallLogged(S, es, calls[i]))
    && (forall i, j | 0 <= i < j < |calls| :: calls[i].at <= Begin(S, calls[j]))
    && (forall x | 0 <= x < |es| && es[x].ToolCall? ::
          exists i :: 0 <= i < |calls| && Begin(S, calls[i]) <= x < calls[i].at)
    && forall x | 0 <= x < |es| && es[x].LlmCall? ::
         OfRow(S, es[x]) || exists i :: 0 <= i < |calls| && calls[i].at == x
  }

  // ---------------------------------------------------------------- every action keeps it

  lemma {:induction false} OtherLogged(S: Session, es: seq<Event>, e: Event, calls: seq<ExecCall>)
    requires WorkLogged(S, es, calls) && !e.ToolCall? && (e.LlmCall? ==> OfRow(S, e))
    ensures WorkLogged(S, es + [e], calls)
  {
    var es' := es + [e];
    forall i | 0 <= i < |calls| ensures CallLogged(S, es', calls[i]) {
      CallStaysLogged(S, es, e, calls[i]);
    }
    forall x | 0 <= x < |es'| && es'[x].ToolCall?
      ensures exists i :: 0 <= i < |calls| && Begin(S, calls[i]) <= x < calls[i].at
    {
      assert es'[x] == es[x];
    }
    forall x | 0 <= x < |es'| && es'[x].LlmCall?
      ensures OfRow(S, es'[x]) || exists i :: 0 <= i < |calls| && calls[i].at == x
    {
      if x < |es| {
        assert es'[x] == es[x];
      }
    }
  }

  lemma {:induction false} CallStaysLogged(S: Session, es: seq<Event>, e: Event, c: ExecCall)
    requires CallLogged(S, es, c)
    ensures CallLogged(S, es + [e], c)
  {
  }

  function ToolEvents(n: NodeId, uses: seq<ToolUse>): (es: seq<Event>)
    ensures |es| == |uses| && forall i | 0 <= i < |uses| :: es[i] == ToolEvent(n, uses[i])
  {
    seq(|uses|, i requires 0 <= i < |uses| => ToolEvent(n, uses[i]))
  }

  lemma {:induction false} EmitToolsTrace(r: Recorder, n: NodeId, uses: seq<ToolUse>)
    ensures EmitTools(r, n, uses).trace == r.trace + ToolEvents(n, uses)
    decreases |uses|
  {
    if uses != [] {
      EmitToolsTrace(Emit(r, ToolEvent(n, uses[0])), n, uses[1..]);
      assert ToolEvents(n, uses) == [ToolEvent(n, uses[0])] + ToolEvents(n, uses[1..]);
    }
  }

  /** What a call adds to the log: its tool events, and for a report one event more. */
  ghost predicate Adds(S: Session, es: seq<Event>, c: ExecCall, es': seq<Event>) {
    var uses := S.world.tools(c.asked, c.request);
    && c.at == |es| + |uses|
    && (if c.result.Finished? then |es'| == c.at + 1 && Answered(S, es'[c.at], c) else |es'| == c.at)
    && es'[..c.at] == es + ToolEvents(c.request.node, uses)
  }

  lemma {:induction false} NewCallLogged(S: Session, es: seq<Event>, c: ExecCall, es': seq<Event>)
    requires Adds(S, es, c, es')
    ensures CallLogged(S, es', c)
  {
    var uses := S.world.tools(c.asked, c.request);
    forall i | 0 <= i < |uses| ensures Used(es'[Begin(S, c) + i], c, uses[i]) {
      assert es'[..c.at][|es| + i] == ToolEvents(c.request.node, uses)[i];
    }
  }

  lemma {:induction false} OldCallLogged(S: Session, es: seq<Event>, c: ExecCall, es': seq<Event>, d: ExecCall)
    requires Adds(S, es, c, es') && CallLogged(S, es, d)
    ensures CallLogged(S, es', d)
  {
    assert forall x | 0 <= x < |es| :: es'[..c.at][x] == es'[x] == es[x];
  }

  lemma {:induction false} EventPlaced(S: Session, es: seq<Event>, c: ExecCall, es': seq<Event>, x: nat)
    requires Adds(S, es, c, es') && x < |es'|
    ensures x < |es| ==> es'[x] == es[x]
    ensures |es| <= x < c.at ==> es'[x].ToolCall? && Begin(S, c) <= x
    ensures x == c.at ==> !es'[x].ToolCall?
  {
    if x < c.at {
      assert es'[..c.at][x] == es'[x];
    }
  }

  lemma {:induction false} WorkIsLogged(S: Session, es: seq<Event>, c: ExecCall, es': seq<Event>, calls: seq<ExecCall>)
    requires WorkLogged(S, es, calls) && Adds(S, es, c, es')
    ensures WorkLogged(S, es', calls + [c])
  {
    var calls' := calls + [c];
    forall i | 0 <= i < |calls'| ensures CallLogged(S, es', calls'[i]) {
      if i < |calls| {
        OldCallLogged(S, es, c, es', calls[i]);
      } else {
        NewCallLogged(S, es, c, es');
      }
    }
    forall x: nat | x < |es'| && es'[x].ToolCall?
      ensures exists i :: 0 <= i < |calls'| && Begin(S, calls'[i]) <= x < calls'[i].at
    {
      EventPlaced(S, es, c, es', x);
      if x < |es| {
        var i :| 0 <= i < |calls| && Begin(S, calls[i]) <= x < calls[i].at;
        assert calls'[i] == calls[i];
      } else {
        assert calls'[|calls|] == c;
      }
    }
    forall x: nat | x < |es'| && es'[x].LlmCall?
      ensures OfRow(S, es'[x]) || exists i :: 0 <= i < |calls'| && calls'[i].at == x
    {
      EventPlaced(S, es, c, es', x);
      if x >= |es| {
        assert calls'[|calls|].at == x;
      } else if !OfRow(S, es[x]) {
        var i :| 0 <= i < |calls| && calls[i].at == x;
        assert calls'[i].at == x;
      }
    }
  }

  /** What a metered output adds to the log. */
  lemma {:induction false} SpendAdds(S: Session, s: RunState, stage: StageSpec, n: NodeId, o: NodeOutput)
    returns (e: Event, warning: Option<Event>)
    ensures e == LlmCall(n, Provider(o), stage.profile.model, TokensIn(o), TokensOut(o), Latency(o))
    ensures warning.Some? ==> warning.value.BudgetEvent?
    ensures var s' := SpendOn(S, s, stage, n, o);
            && s'.rec.calls == s.rec.calls
            && s'.rec.trace == if warning.Some? then s.rec.trace + [e] + [warning.value] else s.rec.trace + [e]
  {
    e := LlmCall(n, Provider(o), stage.profile.model, TokensIn(o), TokensOut(o), Latency(o));
    var (_, v) := MeterCall(S.budget, s.meter, S.team, stage.profile.role, Llm, TokensIn(o), TokensOut(o));
    warning := if v.SpendWarn?
      then Some(BudgetEvent(WarnLevel, v.spent, if v.remaining.Some? then v.remaining.value else 0)) else None;
  }

  lemma {:induction false} ReplayLogged(S: Session, s: RunState, nextSeq: nat, n: NodeId, row: CachedExecution)
    requires May(S, s, Replay(nextSeq, n, row)) && WorkLogged(S, s.rec.trace, s.rec.calls)
    ensures var s' := Act(S, s, Replay(nextSeq, n, row)); WorkLogged(S, s'.rec.trace, s'.rec.calls)
  {
    var e, warning := SpendAdds(S, s, S.stages[n], n, Cached(row));
    assert RowMetered(e, CachedRow(S, nextSeq).value);
    OtherLogged(S, s.rec.trace, e, s.rec.calls);
    if warning.Some? {
      OtherLogged(S, s.rec.trace + [e], warning.value, s.rec.calls);
    }
  }

  /** What a call of the executor adds to the log, up to its answer. */
  lemma {:induction false} CallAdds(S: Session, r: Recorder, nextSeq: nat, request: StageRequest) returns (c: ExecCall)
    ensures c == ExecCall(nextSeq, r.clock, request, S.world.execute(r.clock, request), c.at)
    ensures c.at == |r.trace| + |S.world.tools(r.clock, request)|
    ensures var (r', result) := AskExecutor(S, r, nextSeq, request);
            && result == c.result && r'.calls == r.calls + [c] && r'.clock == r.clock + 1
            && r'.trace == r.trace + ToolEvents(request.node, S.world.tools(r.clock, request))
  {
    EmitToolsTrace(r, request.node, S.world.tools(r.clock, request));
    var worked := EmitTools(r, request.node, S.world.tools(r.clock, request));
    c := ExecCall(nextSeq, r.clock, request, S.world.execute(r.clock, request), |worked.trace|);
  }

  lemma {:induction false} AnswerAdds(S: Session, es: seq<Event>, c: ExecCall, e: Event)
    requires c.at == |es| + |S.world.tools(c.asked, c.request)|
    ensures c.result.StageFailure? ==> Adds(S, es, c,
                                            es + ToolEvents(c.request.node, S.world.tools(c.asked, c.request)))
    ensures c.result.Finished? && Answered(S, e, c) ==>
              Adds(S, es, c, es + ToolEvents(c.request.node, S.world.tools(c.asked, c.request)) + [e])
  {
    var t := es + ToolEvents(c.request.node, S.world.tools(c.asked, c.request));
    assert t[..c.at] == t && (t + [e])[..c.at] == t;
  }

  /** A report's part of the log: the objection, or the llm.call and perhaps a warning. */
  lemma {:induction false} ReportLogged(S: Session, s: RunState, es: seq<Event>, c: ExecCall, report: Report)
    requires c.request.node in S.stages && c.request.model == S.stages[c.request.node].profile.model
    requires c.result == Finished(report) && c.at == |es| + |S.world.tools(c.asked, c.request)|
    requires s.rec.trace == es + ToolEvents(c.request.node, S.world.tools(c.asked, c.request))
    requires s.rec.calls != [] && s.rec.calls[|s.rec.calls| - 1] == c
    requires WorkLogged(S, es, s.rec.calls[..|s.rec.calls| - 1])
    ensures var n := c.request.node;
            var s' := if S.world.violates(c.asked + 1, report.promptHash)
                      then RefuseOn(s, n, CACHE_GATE, GATE_REJECT, 0.0)
                        else SpendOn(S, s, S.stages[n], n, Live(report));
            WorkLogged(S, s'.rec.trace, s'.rec.calls)
  {
    var n, calls := c.request.node, s.rec.calls[..|s.rec.calls| - 1];
    assert s.rec.calls == calls + [c];
    if S.world.violates(c.asked + 1, report.promptHash) {
      var e := GateFail(n, CACHE_GATE, GATE_REJECT, 0.0, None, None);
      AnswerAdds(S, es, c, e);
      WorkIsLogged(S, es, c, s.rec.trace + [e], calls);
    } else {
      var e, warning := SpendAdds(S, s, S.stages[n], n, Live(report));
      AnswerAdds(S, es, c, e);
      WorkIsLogged(S, es, c, s.rec.trace + [e], calls);
      if warning.Some? {
        OtherLogged(S, s.rec.trace + [e], warning.value, s.rec.calls);
      }
    }
  }

  lemma {:induction false} CallWorkLogged(S: Session, s: RunState, nextSeq: nat, request: StageRequest)
    requires May(S, s, Work(nextSeq, request)) && WorkLogged(S, s.rec.trace, s.rec.calls)
    ensures var s' := Act(S, s, Work(nextSeq, request)); WorkLogged(S, s'.rec.trace, s'.rec.calls)
  {
    var c := CallAdds(S, s.rec, nextSeq, request);
    var (r, result) := AskExecutor(S, s.rec, nextSeq, request);
    assert r.calls[..|r.calls| - 1] == s.rec.calls;
    match result
    case StageFailure(_) =>
      AnswerAdds(S, s.rec.trace, c, NodeStop(request.node, request.role, 0, StopDone));
      WorkIsLogged(S, s.rec.trace, c, r.trace, s.rec.calls);
    case Finished(report) =>
      ReportLogged(S, s.(rec := Tick(r)), s.rec.trace, c, report);
  }

  lemma {:induction false} ActLogged(S: Session, s: RunState, a: Action)
    requires May(S, s, a) && WorkLogged(S, s.rec.trace, s.rec.calls)
    ensures var s' := Act(S, s, a); WorkLogged(S, s'.rec.trace, s'.rec.calls)
  {
    var es, calls := s.rec.trace, s.rec.calls;
    match a
    case Wait =>
    case Judge(run) => OtherLogged(S, es, GateEvent(run.node, S.world.judge(s.rec.clock, run), run.escalatedTo), calls);
    case Announce(e) => OtherLogged(S, es, e, calls);
    case Refuse(n, reason, score) => OtherLogged(S, es, GateFail(n, ROUTER_GATE, reason, score, None, None), calls);
    case Work(nextSeq, request) => CallWorkLogged(S, s, nextSeq, request);
    case Replay(nextSeq, n, row) => ReplayLogged(S, s, nextSeq, n, row);
    case Recheck(role) =>
    case Hand(from, to, c, router) => OtherLogged(S, es, HandoffAccept(from, S.world.contractHash(c), to), calls);
    case Settle(router, attempts) =>
    case Keep(durable, concerns) =>
  }

  lemma {:induction false} PathLogged(S: Session, x: RunState, actions: seq<Action>, y: RunState)
    requires Path(S, x, actions, y) && WorkLogged(S, x.rec.trace, x.rec.calls)
    ensures WorkLogged(S, y.rec.trace, y.rec.calls)
    decreases |actions|
  {
    if actions != [] {
      ActLogged(S, x, actions[0]);
      PathLogged(S, Act(S, x, actions[0]), actions[1..], y);
    }
  }

  /**
   * In every run each executor call stands in the log with its tool events in order, then the
   * llm.call with its report's numbers, or the sentinel's objection exactly when the sentinel
   * objects to the prompt; and there is no other tool.call or llm.call but those of replayed rows.
   */
  lemma {:induction false} CallsAreLogged(S: Session)
    ensures var r := Run(S).0.rec; WorkLogged(S, r.trace, r.calls)
  {
    RunActs(S);
    var actions :| Path(S, InitState(S), actions, Run(S).0);
    PathLogged(S, InitState(S), actions, Run(S).0);
  }
}
