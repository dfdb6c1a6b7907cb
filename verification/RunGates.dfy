/**
 * The questions a run asks its gates: every committed output has passed every gate it owes,
 * nothing is executed before the pre-gates, and what a gate's answer means for the end of
 * the run.
 */
module RunGates {
  import opened Core
  import opened Orders
  import opened Domain
  import opened Waves
  import opened Router
  import Budget
  import opened RunModel
  import opened Readers
  import opened RunRouting
  import opened RunInvariant

  // ---------------------------------------------------------------- questions

  /** What every node owes before it is executed, and before its output is routed. */
  function OwedBefore(stage: StageSpec): set<GateRef> {
    {Id("G0"), Id("permission"), Id("budget"), Id("schema")} + stage.preGates
  }

  function OwedAfter(stage: StageSpec): set<GateRef> {
    {Id("schema"), Id("done_criteria"), Id("rubric")} + stage.postGates
  }

  function PhaseOf(ref: GateRef, out: Option<Envelope>): GatePhase {
    if out.Some? then PostPhase else if ref == Id("G0") then G0Phase else PrePhase
  }

  /** The boundary asked this gate about its input and, past the execution, about the output. */
  ghost predicate AskedOf(S: Session, b: Boundary, out: Option<Envelope>, ref: GateRef, q: GateAsk) {
    && q.answer == S.world.judge(q.asked, q.run)
    && q.run.gateRef == ref && q.run.node == b.node && q.run.phase == PhaseOf(ref, out)
    && q.run.envelopeIn == b.input && q.run.envelopeOut == out
    && q.run.contract == b.contract && q.run.grantor == b.grantor && q.run.escalatedTo.None?
  }

  ghost predicate PassedInTurn(S: Session, b: Boundary, out: Option<Envelope>, refs: seq<GateRef>, qs: seq<GateAsk>) {
    |qs| == |refs| && forall i | 0 <= i < |qs| :: AskedOf(S, b, out, refs[i], qs[i]) && qs[i].answer.verdict.Pass?
  }

  /** The gates asked from place lo up to place hi. */
  function GatesAsked(asks: seq<GateAsk>, lo: nat, hi: nat): set<GateRef>
    requires lo <= hi <= |asks|
  {
    set i | lo <= i < hi :: asks[i].run.gateRef
  }

  /**
   * The questions from lo up to hi went to exactly the given gates, each once, in order of
   * their names, and all passed.
   */
  ghost predicate AllPassed(S: Session, b: Boundary, out: Option<Envelope>, refs: set<GateRef>, asks: seq<GateAsk>,
                            lo: nat, hi: nat)
  {
    && lo <= hi <= |asks| && GatesAsked(asks, lo, hi) == refs
    && (forall i, j | lo <= i < j < hi :: Less(asks[i].run.gateRef, asks[j].run.gateRef))
    && forall i | lo <= i < hi :: AskedOf(S, b, out, asks[i].run.gateRef, asks[i]) && asks[i].answer.verdict.Pass?
  }

  lemma {:induction false} InTurnAllPassed(S: Session, b: Boundary, out: Option<Envelope>, refs: set<GateRef>,
                                           asks: seq<GateAsk>, lo: nat)
    requires lo <= |asks| && PassedInTurn(S, b, out, Sorted(refs), asks[lo..])
    ensures AllPassed(S, b, out, refs, asks, lo, |asks|)
  {
    SortedSpec(refs);
    var sorted := Sorted(refs);
    forall i | lo <= i < |asks|
      ensures asks[i].run.gateRef == sorted[i - lo]
      ensures AskedOf(S, b, out, asks[i].run.gateRef, asks[i]) && asks[i].answer.verdict.Pass?
    {
      assert asks[lo..][i - lo] == asks[i];
      assert AskedOf(S, b, out, sorted[i - lo], asks[lo..][i - lo]);
    }
    forall g | g in refs ensures g in GatesAsked(asks, lo, |asks|) {
      var k :| 0 <= k < |sorted| && sorted[k] == g;
      assert asks[lo + k].run.gateRef == g;
    }
    forall g | g in GatesAsked(asks, lo, |asks|) ensures g in refs {
      var i :| lo <= i < |asks| && asks[i].run.gateRef == g;
      assert sorted[i - lo] in sorted;
    }
  }

  lemma {:induction false} PassedStays(S: Session, b: Boundary, out: Option<Envelope>, refs: set<GateRef>,
                                       asks: seq<GateAsk>, lo: nat, hi: nat, asks': seq<GateAsk>)
    requires AllPassed(S, b, out, refs, asks, lo, hi) && asks <= asks'
    ensures AllPassed(S, b, out, refs, asks', lo, hi)
  {
    assert forall i | lo <= i < hi :: asks'[i] == asks[i];
    assert GatesAsked(asks', lo, hi) == GatesAsked(asks, lo, hi);
  }

  // ---------------------------------------------------------------- rejections

  /** The gate rejected, and the question was not the record of an exhausted retry. */
  predicate Rejects(q: GateAsk) {
    q.answer.verdict.RejectVerdict? && q.run.escalatedTo.None?
  }

  ghost predicate NoneRejected(asks: seq<GateAsk>) {
    forall i | 0 <= i < |asks| :: !Rejects(asks[i])
  }

  /** The last question, and no other, was rejected, for a budget or for another reason. */
  ghost predicate LastRejected(asks: seq<GateAsk>, forBudget: bool) {
    && asks != [] && Rejects(asks[|asks| - 1]) && NoneRejected(asks[..|asks| - 1])
    && (asks[|asks| - 1].answer.verdict.reason == BUDGET_EXCEEDED <==> forBudget)
  }

  lemma {:induction false} NotRejectedNext(asks: seq<GateAsk>, q: GateAsk)
    requires NoneRejected(asks)
    ensures !Rejects(q) ==> NoneRejected(asks + [q])
    ensures Rejects(q) ==> LastRejected(asks + [q], q.answer.verdict.reason == BUDGET_EXCEEDED)
  {
    assert (asks + [q])[..|asks|] == asks;
  }

  /** What a step did to the questions of a node, told by whether a gate rejected. */
  ghost predicate AsksOn(before: seq<GateAsk>, after: seq<GateAsk>) {
    before <= after && (NoneRejected(before) ==> NoneRejected(after))
  }

  ghost predicate AsksRejected(before: seq<GateAsk>, after: seq<GateAsk>, forBudget: bool) {
    before <= after && (NoneRejected(before) ==> LastRejected(after, forBudget))
  }

  // ---------------------------------------------------------------- gates in turn

  /** One question: it is recorded with its answer, and only a rejection stops the rest. */
  lemma {:induction false} OneAsk(S: Session, r: Recorder, run: GateRun) returns (q: GateAsk)
    ensures q == GateAsk(|r.trace|, r.clock, run, S.world.judge(r.clock, run))
    ensures AskGate(S, r, run).0.asks == r.asks + [q] && AskGate(S, r, run).1 == q.answer.verdict
    ensures !Rejects(q) ==> AsksOn(r.asks, r.asks + [q])
    ensures Rejects(q) ==> AsksRejected(r.asks, r.asks + [q], q.answer.verdict.reason == BUDGET_EXCEEDED)
  {
    q := GateAsk(|r.trace|, r.clock, run, S.world.judge(r.clock, run));
    if NoneRejected(r.asks) {
      NotRejectedNext(r.asks, q);
    }
  }

  lemma {:induction false} AsksThen(a: seq<GateAsk>, c: seq<GateAsk>, d: seq<GateAsk>, forBudget: bool)
    requires AsksOn(a, c)
    ensures AsksOn(c, d) ==> AsksOn(a, d)
    ensures AsksRejected(c, d, forBudget) ==> AsksRejected(a, d, forBudget)
  {
  }

  lemma {:induction false} PassedCons(S: Session, b: Boundary, out: Option<Envelope>, refs: seq<GateRef>,
                                      before: seq<GateAsk>, q: GateAsk, after: seq<GateAsk>)
    requires refs != [] && AskedOf(S, b, out, refs[0], q) && q.answer.verdict.Pass? && before + [q] <= after
    requires PassedInTurn(S, b, out, refs[1..], after[|before| + 1..])
    ensures PassedInTurn(S, b, out, refs, after[|before|..])
  {
    assert after[|before|] == (before + [q])[|before|];
    var qs := after[|before|..];
    forall i | 0 <= i < |qs| ensures AskedOf(S, b, out, refs[i], qs[i]) && qs[i].answer.verdict.Pass? {
      if i > 0 {
        assert qs[i] == after[|before| + 1..][i - 1] && refs[i] == refs[1..][i - 1];
      }
    }
  }

  function PreRun(S: Session, b: Boundary, m: Budget.Meter, attempt: nat, ref: GateRef): GateRun {
    GateRun(ref, b.node, if ref == G0_GATE then G0Phase else PrePhase, b.input, None, b.contract,
            Budget.Snapshot(S.budget, m, b.stage.profile.role), attempt, b.grantor, None)
  }

  /** What the questions of the pre-gates come to. */
  ghost predicate PreAsked(S: Session, b: Boundary, refs: seq<GateRef>, before: seq<GateAsk>, after: seq<GateAsk>,
                           pre: PreEnd)
  {
    match pre
    case PrePassed => AsksOn(before, after) && PassedInTurn(S, b, None, refs, after[|before|..])
    case PreRetry => AsksOn(before, after)
    case PreBudget => AsksRejected(before, after, true)
    case PreRejected => AsksRejected(before, after, false)
  }

  lemma {:induction false} PreAskedThen(S: Session, b: Boundary, refs: seq<GateRef>, before: seq<GateAsk>, q: GateAsk,
                                        after: seq<GateAsk>, pre: PreEnd)
    requires refs != [] && AskedOf(S, b, None, refs[0], q) && q.answer.verdict.Pass? && AsksOn(before, before + [q])
    requires PreAsked(S, b, refs[1..], before + [q], after, pre)
    ensures PreAsked(S, b, refs, before, after, pre)
  {
    AsksThen(before, before + [q], after, pre == PreBudget);
    if pre == PrePassed {
      PassedCons(S, b, None, refs, before, q, after);
    }
  }

  lemma {:induction false} PreGatesAsk(S: Session, b: Boundary, m: Budget.Meter, attempt: nat, refs: seq<GateRef>,
                                       r: Recorder)
    ensures var (r', pre) := PreGates(S, b, m, attempt, refs, r); PreAsked(S, b, refs, r.asks, r'.asks, pre)
    decreases |refs|
  {
    if refs != [] {
      var run := PreRun(S, b, m, attempt, refs[0]);
      var q := OneAsk(S, r, run);
      if q.answer.verdict.Pass? {
        var r1 := AskGate(S, r, run).0;
        PreGatesAsk(S, b, m, attempt, refs[1..], r1);
        var (r2, pre) := PreGates(S, b, m, attempt, refs[1..], r1);
        PreAskedThen(S, b, refs, r.asks, q, r2.asks, pre);
      }
    }
  }

  /** What the questions of the post-gates come to. */
  ghost predicate PostAsked(S: Session, b: Boundary, m: Budget.Meter, attempt: nat, refs: seq<GateRef>, out: Envelope,
                            before: seq<GateAsk>, after: seq<GateAsk>, failed: Option<(GateRef, GateVerdict)>)
  {
    match failed
    case None => AsksOn(before, after) && PassedInTurn(S, b, Some(out), refs, after[|before|..])
    case Some((ref, v)) =>
      && after != [] && after[|after| - 1].run == PostRun(S, b, m, attempt, ref, out, None)
      && after[|after| - 1].answer.verdict == v && !v.Pass?
      && (if v.RejectVerdict? then AsksRejected(before, after, v.reason == BUDGET_EXCEEDED) else AsksOn(before, after))
  }

  lemma {:induction false} PostAskedThen(S: Session, b: Boundary, m: Budget.Meter, attempt: nat, refs: seq<GateRef>,
                                         out: Envelope,
                                         before: seq<GateAsk>, q: GateAsk, after: seq<GateAsk>,
                                         failed: Option<(GateRef, GateVerdict)>)
    requires refs != [] && AskedOf(S, b, Some(out), refs[0], q) && q.answer.verdict.Pass?
    requires AsksOn(before, before + [q]) && PostAsked(S, b, m, attempt, refs[1..], out, before + [q], after, failed)
    ensures PostAsked(S, b, m, attempt, refs, out, before, after, failed)
  {
    match failed
    case None =>
      AsksThen(before, before + [q], after, false);
      PassedCons(S, b, Some(out), refs, before, q, after);
    case Some((_, v)) =>
      AsksThen(before, before + [q], after, v.RejectVerdict? && v.reason == BUDGET_EXCEEDED);
  }

  lemma {:induction false} PostGatesAsk(S: Session, b: Boundary, m: Budget.Meter, attempt: nat, refs: seq<GateRef>,
                                        out: Envelope, r: Recorder)
    ensures var (r', failed) := PostGates(S, b, m, attempt, refs, out, r);
            PostAsked(S, b, m, attempt, refs, out, r.asks, r'.asks, failed) && r'.calls == r.calls
    decreases |refs|
  {
    if refs != [] {
      var run := PostRun(S, b, m, attempt, refs[0], out, None);
      var q := OneAsk(S, r, run);
      if q.answer.verdict.Pass? {
        var r1 := AskGate(S, r, run).0;
        PostGatesAsk(S, b, m, attempt, refs[1..], out, r1);
        var (r2, failed) := PostGates(S, b, m, attempt, refs[1..], out, r1);
        PostAskedThen(S, b, m, attempt, refs, out, r.asks, q, r2.asks, failed);
      }
    }
  }

  lemma {:induction false} RouteEdgesAsk(S: Session, b: Boundary, out: Envelope, confidence: real, succs: seq<NodeId>,
                                         r: Recorder, q: Routing)
    ensures var r' := RouteEdges(S, b, out, confidence, succs, r, q).0;
            r'.asks == r.asks && r'.calls == r.calls && r'.clock == r.clock
    decreases |succs|
  {
    if succs != [] {
      var c := BuildContract(S, b.node, succs[0], b.stage, out, confidence);
      var r1 := Emit(r, HandoffRequest(b.node, S.world.contractHash(c)));
      var (router', d) := Route(S.policy, S.task, q.router, c);
      if d.Accept? {
        RouteEdgesAsk(S, b, out, confidence, succs[1..],
                      Emit(r1, HandoffAccept(b.node, S.world.contractHash(c), d.to)),
                      Routing(router', q.routedIn[d.to := c], q.accepted + [(b.node, d.to)]));
      }
    }
  }

  // ---------------------------------------------------------------- why a node ends

  lemma {:induction false} JudgmentsSnoc(es: seq<Event>, e: Event)
    ensures Judgments(es + [e]) == if IsJudgment(e) then Judgments(es) + [e] else Judgments(es)
  {
    assert (es + [e])[..|es|] == es;
  }

  /** The last gate event is a fail recorded under this gate id, for this reason and with this score. */
  ghost predicate LastFailBy(es: seq<Event>, gateId: Id, reason: ReasonCode, score: real) {
    var js := Judgments(es);
    && js != [] && js[|js| - 1].GateFail? && js[|js| - 1].gateId == gateId && js[|js| - 1].reason == reason
    && js[|js| - 1].score == score
  }

  /** How the last node that stopped was stopped. */
  function LastStop(es: seq<Event>): Option<StopKind> {
    if es == [] then None
    else if es[|es| - 1].NodeStop? then Some(es[|es| - 1].stopKind)
    else LastStop(es[..|es| - 1])
  }

  lemma {:induction false} LastStopSnoc(es: seq<Event>, e: Event)
    ensures LastStop(es + [e]) == if e.NodeStop? then Some(e.stopKind) else LastStop(es)
  {
    assert (es + [e])[..|es|] == es;
  }

  /** The budget's suspension is on record. */
  ghost predicate Signalled(es: seq<Event>) {
    exists x :: 0 <= x < |es| && es[x].BudgetEvent? && es[x].level == SuspendLevel
  }

  lemma {:induction false} SignalledStays(es: seq<Event>, e: Event)
    requires Signalled(es)
    ensures Signalled(es + [e])
  {
    var x :| 0 <= x < |es| && es[x].BudgetEvent? && es[x].level == SuspendLevel;
    assert (es + [e])[x] == es[x];
  }

  /** The output is the last call's report, or a replayed row. */
  ghost predicate Had(S: Session, calls: seq<ExecCall>, o: NodeOutput) {
    match o
    case Live(report) => calls != [] && calls[|calls| - 1].result == Finished(report)
    case Cached(row) => exists k: nat :: CachedRow(S, k) == Some(row)
  }

  /** The router returned the output: the fail on record has the output's confidence as its score. */
  ghost predicate SentBack(S: Session, r: Recorder) {
    exists o: NodeOutput ::
      Had(S, r.calls, o) && LastFailBy(r.trace, Id("router.v1"), GATE_REJECT, Clamp(ConfidenceOf(o)))
  }

  /** A post-gate rejected the output for the budget. */
  ghost predicate OutputRejected(asks: seq<GateAsk>) {
    LastRejected(asks, true) && asks[|asks| - 1].run.phase == PostPhase
  }

  /** The last poll of the interrupt flag was answered yes. */
  ghost predicate Interrupted(S: Session, r: Recorder) {
    r.clock > 0 && S.world.interrupted(r.clock - 1)
  }

  /**
   * The last question repeats the one before, which was answered Retry with the retry bound
   * used up, as the record of an escalation to whoever the contract came from.
   */
  ghost predicate Escalated(S: Session, asks: seq<GateAsk>) {
    && |asks| >= 2
    && var (p, q) := (asks[|asks| - 2], asks[|asks| - 1]);
    && p.answer.verdict.Retry? && p.run.escalatedTo.None? && p.run.attempt >= S.policy.boundedRetry
    && q.run == p.run.(escalatedTo := Some(p.run.contract.fromNode))
  }

  /** The cache sentinel objected to the prompt of the last report. */
  ghost predicate SentinelObjected(S: Session, r: Recorder) {
    && r.clock > 0 && r.calls != [] && r.calls[|r.calls| - 1].result.Finished?
    && S.world.violates(r.clock - 1, r.calls[|r.calls| - 1].result.report.promptHash)
    && LastFailBy(r.trace, Id("cache"), GATE_REJECT, 0.0)
  }

  /** Every end of a node without a commit has its cause on record, and its kind of stop. */
  ghost predicate EndTold(S: Session, r: Recorder, end: NodeEnd) {
    match end
    case NodeSuspended(None) => Interrupted(S, r) && LastStop(r.trace) == Some(StopEscalate)
    case NodeSuspended(Some(reason)) =>
      && reason == BUDGET_EXCEEDED && LastRejected(r.asks, true) && LastStop(r.trace) == Some(StopEscalate)
      && (Signalled(r.trace) || OutputRejected(r.asks))
    case NodeFailed(reason) =>
      && reason == GATE_REJECT && LastStop(r.trace) == Some(StopReject)
      && (LastRejected(r.asks, false) || Escalated(S, r.asks) || SentinelObjected(S, r) || SentBack(S, r))
    case NodeHalted(reason) =>
      && LastStop(r.trace) == Some(StopEscalate)
      && (LastCallFailed(r.calls, reason) || LastFailBy(r.trace, Id("router.v1"), reason, 0.0))
    case Committed => true
    case Panicked => true
  }

  /** A rejection is the last question, and ends the node: suspended for a budget, failed otherwise. */
  ghost predicate RejectTold(asks: seq<GateAsk>, end: NodeEnd) {
    || NoneRejected(asks)
    || (LastRejected(asks, true) && end == NodeSuspended(Some(BUDGET_EXCEEDED)))
    || (LastRejected(asks, false) && end == NodeFailed(GATE_REJECT))
  }

  ghost predicate TurnTold(S: Session, before: seq<GateAsk>, t: Turn) {
    && before <= t.l.rec.asks
    && (NoneRejected(before) ==>
          if t.Stop? then EndTold(S, t.l.rec, t.end) && RejectTold(t.l.rec.asks, t.end) else NoneRejected(t.l.rec.asks))
  }

  /** A product has passed all gates its node owes for the output, and nothing was asked since. */
  ghost predicate ProductPassed(S: Session, b: Boundary, asks: seq<GateAsk>, out: Envelope, from: nat) {
    exists lo: nat :: from <= lo && AllPassed(S, b, Some(out), OwedAfter(b.stage), asks, lo, |asks|)
  }

  ghost predicate TurnPassed(S: Session, b: Boundary, before: seq<GateAsk>, t: Turn) {
    t.Ready? ==> ProductPassed(S, b, t.l.rec.asks, t.product.out, |before|)
  }

  /** The contract's sender is whom an escalation names. */
  ghost predicate WellMade(b: Boundary) {
    b.contract.fromNode == Parent(b)
  }

  // ---------------------------------------------------------------- attempts

  lemma {:induction false} StoppedTrace(b: Boundary, l: Loop, kind: StopKind, end: NodeEnd)
    ensures Judgments(StopWith(b, l, kind, end).l.rec.trace) == Judgments(l.rec.trace)
    ensures LastStop(StopWith(b, l, kind, end).l.rec.trace) == Some(kind)
  {
    JudgmentsSnoc(l.rec.trace, StopEvent(b, kind));
    LastStopSnoc(l.rec.trace, StopEvent(b, kind));
  }

  lemma {:induction false} RecordedFail(b: Boundary, l: Loop, gateId: Id, reason: ReasonCode, score: real)
    ensures LastFailBy(FailRecorded(b, l, gateId, reason, score).rec.trace, gateId, reason, score)
  {
    JudgmentsSnoc(l.rec.trace, GateFail(b.node, gateId, reason, score, None, None));
  }

  /** A handoff that was returned to its sender. */
  lemma {:induction false} ReturnTold(S: Session, b: Boundary, l: Loop, o: NodeOutput)
    requires Had(S, l.rec.calls, o)
    ensures TurnTold(S, l.rec.asks, StopWith(b, FailRecorded(b, l, ROUTER_GATE, GATE_REJECT, Clamp(ConfidenceOf(o))),
                                             StopReject, NodeFailed(GATE_REJECT)))
  {
    var score := Clamp(ConfidenceOf(o));
    var l1 := FailRecorded(b, l, ROUTER_GATE, GATE_REJECT, score);
    RecordedFail(b, l, ROUTER_GATE, GATE_REJECT, score);
    StoppedTrace(b, l1, StopReject, NodeFailed(GATE_REJECT));
    var t := StopWith(b, l1, StopReject, NodeFailed(GATE_REJECT));
    assert LastFailBy(t.l.rec.trace, Id("router.v1"), GATE_REJECT, Clamp(ConfidenceOf(o)));
    assert SentBack(S, t.l.rec);
  }

  /** A handoff that halted the session. */
  lemma {:induction false} HaltTold(S: Session, b: Boundary, l: Loop, reason: ReasonCode)
    ensures TurnTold(S, l.rec.asks,
                     StopWith(b, FailRecorded(b, l, ROUTER_GATE, reason, 0.0), StopEscalate, NodeHalted(reason)))
  {
    RecordedFail(b, l, ROUTER_GATE, reason, 0.0);
    StoppedTrace(b, FailRecorded(b, l, ROUTER_GATE, reason, 0.0), StopEscalate, NodeHalted(reason));
  }

  lemma {:induction false} RouteTurnTold(S: Session, b: Boundary, l: Loop, o: NodeOutput, out: Envelope)
    requires Had(S, l.rec.calls, o)
    ensures var t := RouteTurn(S, b, l, o, out, Clamp(ConfidenceOf(o)));
            TurnTold(S, l.rec.asks, t) && (t.Ready? ==> t.product.out == out && t.l.rec.asks == l.rec.asks)
  {
    var confidence := Clamp(ConfidenceOf(o));
    RouteEdgesAsk(S, b, out, confidence, Sorted(Succs(S.g, b.node)), l.rec, l.routing);
    var (r, q, end) := RouteEdges(S, b, out, confidence, Sorted(Succs(S.g, b.node)), l.rec, l.routing);
    var l1 := l.(rec := r, routing := q);
    match end
    case Returned => ReturnTold(S, b, l1, o);
    case HaltedBy(reason) => HaltTold(S, b, l1, reason);
    case _ =>
  }

  lemma {:induction false} RejectedTold(S: Session, b: Boundary, before: seq<GateAsk>, l: Loop, forBudget: bool)
    requires AsksRejected(before, l.rec.asks, forBudget) && l.rec.asks != []
    requires l.rec.asks[|l.rec.asks| - 1].run.phase == PostPhase
    ensures forBudget ==>
              TurnTold(S, before, StopWith(b, l, StopEscalate, NodeSuspended(Some(BUDGET_EXCEEDED))))
    ensures !forBudget ==> TurnTold(S, before, StopWith(b, l, StopReject, NodeFailed(GATE_REJECT)))
  {
    StoppedTrace(b, l, StopEscalate, NodeSuspended(Some(BUDGET_EXCEEDED)));
    StoppedTrace(b, l, StopReject, NodeFailed(GATE_REJECT));
  }

  /** The exhausted retry is asked about once more, with the escalation. */
  lemma {:induction false} EscalationTold(S: Session, b: Boundary, before: seq<GateAsk>, l: Loop, attempt: nat,
                                          ref: GateRef, out: Envelope, r: Recorder)
    requires WellMade(b) && AsksOn(before, r.asks) && attempt >= S.policy.boundedRetry
    requires r.asks != [] && r.asks[|r.asks| - 1].answer.verdict.Retry?
    requires r.asks[|r.asks| - 1].run == PostRun(S, b, l.meter, attempt, ref, out, None)
    ensures var r2 := AskGate(S, r, PostRun(S, b, l.meter, attempt, ref, out, Some(Parent(b)))).0;
            TurnTold(S, before, StopWith(b, l.(rec := r2), StopReject, NodeFailed(GATE_REJECT)))
  {
    var run := PostRun(S, b, l.meter, attempt, ref, out, Some(Parent(b)));
    var q := OneAsk(S, r, run);
    var r2 := AskGate(S, r, run).0;
    assert r2.asks[|r2.asks| - 2] == r.asks[|r.asks| - 1];
    assert Escalated(S, r2.asks);
    StoppedTrace(b, l.(rec := r2), StopReject, NodeFailed(GATE_REJECT));
    AsksThen(before, r.asks, r2.asks, false);
  }

  /** The consequence of the first gate that did not pass. */
  function FailedTurn(S: Session, b: Boundary, l: Loop, attempt: nat, ref: GateRef, v: GateVerdict, out: Envelope,
                      r: Recorder): Turn
  {
    var l1 := l.(rec := r);
    if v.Retry? then
      var r2 := AskGate(S, r, PostRun(S, b, l.meter, attempt, ref, out, Some(Parent(b)))).0;
      RetryOr(S, b, l1, attempt, StopWith(b, l.(rec := r2), StopReject, NodeFailed(GATE_REJECT)))
    else if v.RejectVerdict? && v.reason == BUDGET_EXCEEDED then
      StopWith(b, l1, StopEscalate, NodeSuspended(Some(BUDGET_EXCEEDED)))
    else StopWith(b, l1, StopReject, NodeFailed(GATE_REJECT))
  }

  lemma {:induction false} FailedGateTold(S: Session, b: Boundary, before: seq<GateAsk>, l: Loop, attempt: nat,
                                          ref: GateRef, v: GateVerdict, out: Envelope, r: Recorder)
    requires WellMade(b) && !v.Pass?
    requires if v.RejectVerdict? then AsksRejected(before, r.asks, v.reason == BUDGET_EXCEEDED)
             else AsksOn(before, r.asks)
    requires r.asks != [] && r.asks[|r.asks| - 1].answer.verdict == v
    requires r.asks[|r.asks| - 1].run == PostRun(S, b, l.meter, attempt, ref, out, None)
    ensures TurnTold(S, before, FailedTurn(S, b, l, attempt, ref, v, out, r))
            && !FailedTurn(S, b, l, attempt, ref, v, out, r).Ready?
  {
    if v.Retry? {
      if attempt >= S.policy.boundedRetry {
        EscalationTold(S, b, before, l, attempt, ref, out, r);
      }
    } else {
      RejectedTold(S, b, before, l.(rec := r), v.reason == BUDGET_EXCEEDED);
    }
  }

  /** The parts of a judged attempt. */
  lemma {:induction false} JudgeParts(S: Session, b: Boundary, l: Loop, attempt: nat, o: NodeOutput)
    returns (r: Recorder, failed: Option<(GateRef, GateVerdict)>, t: Turn)
    ensures t == JudgeTurn(S, b, l, attempt, o)
    ensures PostAsked(S, b, l.meter, attempt, PostRefs(b.stage), OutputEnvelope(S, b, o), l.rec.asks, r.asks, failed)
    ensures r.calls == l.rec.calls
    ensures failed.None? ==> t == RouteTurn(S, b, l.(rec := r), o, OutputEnvelope(S, b, o), Clamp(ConfidenceOf(o)))
    ensures failed.Some? ==>
              t == FailedTurn(S, b, l, attempt, failed.value.0, failed.value.1, OutputEnvelope(S, b, o), r)
  {
    var out := OutputEnvelope(S, b, o);
    PostGatesAsk(S, b, l.meter, attempt, PostRefs(b.stage), out, l.rec);
    var ran := PostGates(S, b, l.meter, attempt, PostRefs(b.stage), out, l.rec);
    r, failed, t := ran.0, ran.1, JudgeTurn(S, b, l, attempt, o);
  }

  lemma {:induction false} JudgeTurnTold(S: Session, b: Boundary, l: Loop, attempt: nat, o: NodeOutput)
    requires WellMade(b) && Had(S, l.rec.calls, o)
    ensures TurnTold(S, l.rec.asks, JudgeTurn(S, b, l, attempt, o))
    ensures TurnPassed(S, b, l.rec.asks, JudgeTurn(S, b, l, attempt, o))
  {
    var r, failed, t := JudgeParts(S, b, l, attempt, o);
    if failed.None? {
      RoutedTold(S, b, l, r, o, OutputEnvelope(S, b, o));
    } else {
      FailedGateTold(S, b, l.rec.asks, l, attempt, failed.value.0, failed.value.1, OutputEnvelope(S, b, o), r);
    }
  }

  lemma {:induction false} RoutedTold(S: Session, b: Boundary, l: Loop, r: Recorder, o: NodeOutput, out: Envelope)
    requires AsksOn(l.rec.asks, r.asks) && Had(S, r.calls, o)
    requires PassedInTurn(S, b, Some(out), PostRefs(b.stage), r.asks[|l.rec.asks|..])
    ensures var t := RouteTurn(S, b, l.(rec := r), o, out, Clamp(ConfidenceOf(o)));
            TurnTold(S, l.rec.asks, t) && TurnPassed(S, b, l.rec.asks, t)
  {
    InTurnAllPassed(S, b, Some(out), OwedAfter(b.stage), r.asks, |l.rec.asks|);
    RouteTurnTold(S, b, l.(rec := r), o, out);
  }

  lemma {:induction false} MeterTurnAsks(S: Session, b: Boundary, l: Loop, o: NodeOutput)
    ensures MeterTurn(S, b, l, o).rec.asks == l.rec.asks && MeterTurn(S, b, l, o).rec.calls == l.rec.calls
  {
  }

  /** The executor asks no gate; a report is the answer to the last call. */
  lemma {:induction false} ObtainAsks(S: Session, b: Boundary, nextSeq: nat, attempt: nat, r: Recorder)
    ensures match Obtain(S, b, nextSeq, attempt, r)
            case ForeignRow => true
            case Broken(r', reason) => r'.asks == r.asks && LastCallFailed(r'.calls, reason)
            case Got(r', o) =>
              r'.asks == r.asks && Had(S, r'.calls, o)
  {
    assert CachedRow(S, nextSeq).Some? ==> CachedRow(S, nextSeq) == Some(CachedRow(S, nextSeq).value);
  }

  lemma {:induction false} FailThenStopTold(es: seq<Event>, e: Event, f: Event)
    requires e.GateFail? && !IsJudgment(f)
    ensures LastFailBy((es + [e]) + [f], e.gateId, e.reason, e.score)
    ensures f.NodeStop? ==> LastStop((es + [e]) + [f]) == Some(f.stopKind)
  {
    JudgmentsSnoc(es, e);
    JudgmentsSnoc(es + [e], f);
    LastStopSnoc(es + [e], f);
  }

  lemma {:induction false} SentinelFail(S: Session, b: Boundary, r: Recorder, report: Report) returns (r': Recorder)
    requires r.calls != [] && r.calls[|r.calls| - 1].result == Finished(report)
    requires S.world.violates(r.clock, report.promptHash)
    ensures r' == Emit(Emit(RecordScore(Tick(r), 0.0), GateFail(b.node, CACHE_GATE, GATE_REJECT, 0.0, None, None)),
                       StopEvent(b, StopReject))
    ensures SentinelObjected(S, r') && r'.asks == r.asks && LastStop(r'.trace) == Some(StopReject)
  {
    var e := GateFail(b.node, CACHE_GATE, GATE_REJECT, 0.0, None, None);
    FailThenStopTold(r.trace, e, StopEvent(b, StopReject));
    r' := Emit(Emit(RecordScore(Tick(r), 0.0), e), StopEvent(b, StopReject));
  }

  lemma {:induction false} ViolatedTold(S: Session, b: Boundary, l: Loop, r: Recorder, report: Report)
    requires r.asks == l.rec.asks && r.calls != [] && r.calls[|r.calls| - 1].result == Finished(report)
    requires S.world.violates(r.clock, report.promptHash)
    ensures var l1 := l.(rec := RecordScore(Tick(r), 0.0));
            var l2 := l1.(rec := Emit(l1.rec, GateFail(b.node, CACHE_GATE, GATE_REJECT, 0.0, None, None)));
            TurnTold(S, l.rec.asks, StopWith(b, l2, StopReject, NodeFailed(GATE_REJECT)))
  {
    var _ := SentinelFail(S, b, r, report);
  }

  lemma {:induction false} BrokenTold(S: Session, b: Boundary, l: Loop, attempt: nat, r: Recorder, reason: ReasonCode)
    requires r.asks == l.rec.asks && LastCallFailed(r.calls, reason)
    ensures var l1 := l.(rec := r);
            TurnTold(S, l.rec.asks,
                     RetryOr(S, b, l1, attempt, StopWith(b, l1, StopEscalate, NodeHalted(reason))))
  {
    StoppedTrace(b, l.(rec := r), StopEscalate, NodeHalted(reason));
  }

  lemma {:induction false} TakeTurnTold(S: Session, b: Boundary, nextSeq: nat, l: Loop)
    requires WellMade(b)
    ensures var t := TakeTurn(S, b, nextSeq, l);
            TurnTold(S, l.rec.asks, t) && TurnPassed(S, b, l.rec.asks, t)
  {
    var (r, stop) := Poll(S, l.rec);
    var attempt := AttemptOf(l.attempts, b.node);
    if stop {
      StoppedTrace(b, l.(rec := r), StopEscalate, NodeSuspended(None));
    } else {
      ObtainAsks(S, b, nextSeq, attempt, r);
      match Obtain(S, b, nextSeq, attempt, r)
      case ForeignRow =>
      case Broken(r1, reason) => BrokenTold(S, b, l, attempt, r1, reason);
      case Got(r1, o) =>
        if o.Live? && S.world.violates(r1.clock, o.report.promptHash) {
          ViolatedTold(S, b, l, r1, o.report);
        } else {
          var l1 := l.(rec := if o.Live? then Tick(r1) else r1);
          MeterTurnAsks(S, b, l1, o);
          JudgeTurnTold(S, b, MeterTurn(S, b, l1, o), attempt, o);
        }
    }
  }

  lemma {:induction false} TurnToldThen(S: Session, b: Boundary, before: seq<GateAsk>, l: Loop, t: Turn)
    requires before <= l.rec.asks && (NoneRejected(before) ==> NoneRejected(l.rec.asks))
    requires TurnTold(S, l.rec.asks, t) && TurnPassed(S, b, l.rec.asks, t)
    ensures TurnTold(S, before, t) && TurnPassed(S, b, before, t)
  {
  }

  /** The attempts of a node: a product has passed its gates, and every other end has its cause on record. */
  lemma {:induction false} AttemptsTold(S: Session, b: Boundary, nextSeq: nat, l: Loop)
    requires WellMade(b)
    ensures var t := Attempts(S, b, nextSeq, l);
            TurnTold(S, l.rec.asks, t) && TurnPassed(S, b, l.rec.asks, t)
    decreases RetriesLeft(S, b.node, l)
  {
    var t := TakeTurn(S, b, nextSeq, l);
    TakeTurnTold(S, b, nextSeq, l);
    TurnsRunOut(S, b, nextSeq, l);
    if t.Again? {
      AttemptsTold(S, b, nextSeq, t.l);
      TurnToldThen(S, b, l.rec.asks, t.l, Attempts(S, b, nextSeq, t.l));
    }
  }

  // ---------------------------------------------------------------- one node

  /** The i-th question was asked right after the interrupt flag was found down. */
  ghost predicate FlagDown(S: Session, asks: seq<GateAsk>, i: nat) {
    i < |asks| && asks[i].asked > 0 && !S.world.interrupted(asks[i].asked - 1)
  }

  /** The interrupt flag was just found down. */
  ghost predicate JustDown(S: Session, r: Recorder) {
    r.clock > 0 && !S.world.interrupted(r.clock - 1)
  }

  lemma {:induction false} FirstAsked(S: Session, b: Boundary, m: Budget.Meter, attempt: nat, refs: seq<GateRef>,
                                      r: Recorder)
    requires refs != [] && JustDown(S, r)
    ensures FlagDown(S, PreGates(S, b, m, attempt, refs, r).0.asks, |r.asks|)
  {
    var run := PreRun(S, b, m, attempt, refs[0]);
    var q := OneAsk(S, r, run);
    var (r1, v) := AskGate(S, r, run);
    var r2 := PreGates(S, b, m, attempt, refs, r).0;
    if v.Pass? {
      PreGatesAsk(S, b, m, attempt, refs[1..], r1);
      assert r2 == PreGates(S, b, m, attempt, refs[1..], r1).0;
    }
    assert r1.asks <= r2.asks;
    assert r2.asks[|r.asks|] == r1.asks[|r.asks|] == q;
  }

  lemma {:induction false} SomePreRefs(stage: StageSpec)
    ensures PreRefs(stage) != []
  {
    SortedSpec({G0_GATE, Id("permission"), Id("budget"), Id("schema")} + stage.preGates);
    assert G0_GATE in PreRefs(stage);
  }

  /**
   * The node began with the interrupt flag down, before anything else its pre-gates passed, and
   * later all its post-gates on this output.
   */
  ghost predicate Judged(S: Session, b: Boundary, out: Envelope, asks: seq<GateAsk>) {
    exists i: nat, j: nat, k: nat, l: nat :: JudgedAt(S, b, out, asks, i, j, k, l)
  }

  ghost predicate JudgedAt(S: Session, b: Boundary, out: Envelope, asks: seq<GateAsk>, i: nat, j: nat, k: nat, l: nat) {
    && FlagDown(S, asks, i) && AllPassed(S, b, None, OwedBefore(b.stage), asks, i, j) && j <= k
    && AllPassed(S, b, Some(out), OwedAfter(b.stage), asks, k, l)
  }

  lemma {:induction false} JudgedStays(S: Session, b: Boundary, out: Envelope, asks: seq<GateAsk>, asks': seq<GateAsk>)
    requires Judged(S, b, out, asks) && asks <= asks'
    ensures Judged(S, b, out, asks')
  {
    var i: nat, j: nat, k: nat, l: nat :| JudgedAt(S, b, out, asks, i, j, k, l);
    PassedStays(S, b, None, OwedBefore(b.stage), asks, i, j, asks');
    PassedStays(S, b, Some(out), OwedAfter(b.stage), asks, k, l, asks');
    assert JudgedAt(S, b, out, asks', i, j, k, l);
  }

  /** A node that stored nothing. */
  ghost predicate EndedUnstored(S: Session, s: RunState, s': RunState, end: NodeEnd) {
    && s'.durable == s.durable && end != Committed
    && EndTold(S, s'.rec, end) && RejectTold(s'.rec.asks, end)
  }

  /** A node that stored its product, and then went on or reached a suspend line. */
  ghost predicate EndedStored(S: Session, b: Boundary, s: RunState, s': RunState, end: NodeEnd, p: Product) {
    && InOrder(S, s.durable, b.node) && s'.durable == CommitDurable(S, s.durable, b, p)
    && NoneRejected(s'.rec.asks) && Judged(S, b, p.out, s'.rec.asks)
    && CommitStopped(s'.rec, end)
  }

  /** How a stored product's node was stopped: done, or escalated at a suspend line with the suspension on record. */
  ghost predicate CommitStopped(r: Recorder, end: NodeEnd) {
    if end == Committed then LastStop(r.trace) == Some(StopDone)
    else
      && end == NodeSuspended(Some(BUDGET_EXCEEDED)) && r.exceededAt.Some?
      && LastStop(r.trace) == Some(StopEscalate) && Signalled(r.trace)
  }

  ghost predicate NodeTold(S: Session, b: Boundary, s: RunState, s': RunState, end: NodeEnd) {
    && s.rec.asks <= s'.rec.asks
    && (EndedUnstored(S, s, s', end) || exists p :: EndedStored(S, b, s, s', end, p))
  }

  lemma {:induction false} JudgedFrom(S: Session, b: Boundary, out: Envelope, asks: seq<GateAsk>, i: nat, j: nat)
    requires FlagDown(S, asks, i) && AllPassed(S, b, None, OwedBefore(b.stage), asks, i, j)
    requires ProductPassed(S, b, asks, out, j)
    ensures Judged(S, b, out, asks)
  {
    var lo: nat :| j <= lo && AllPassed(S, b, Some(out), OwedAfter(b.stage), asks, lo, |asks|);
    assert JudgedAt(S, b, out, asks, i, j, lo, |asks|);
  }

  /** The meter after a commit's recheck. */
  function MeterAfter(S: Session, b: Boundary, l: Loop): Budget.Meter {
    Budget.MeterCall(S.budget, l.meter, S.team, b.stage.profile.role, Budget.Llm, 0, 0).0
  }

  /** The suspension and then the stop. */
  lemma {:induction false} SuspendStops(es: seq<Event>, spent: nat, stop: Event)
    requires stop.NodeStop?
    ensures var es' := es + [BudgetEvent(SuspendLevel, spent, 0)] + [stop];
            Signalled(es') && LastStop(es') == Some(stop.stopKind)
  {
    var e := BudgetEvent(SuspendLevel, spent, 0);
    LastStopSnoc(es + [e], stop);
    assert (es + [e] + [stop])[|es|] == e;
  }

  /** What a commit does to the questions and the durable state. */
  lemma {:induction false} CommitParts(S: Session, b: Boundary, s: RunState, l: Loop, p: Product)
    returns (s': RunState, end: NodeEnd)
    ensures (s', end) == CommitNode(S, b, s, l, p) && s'.rec.asks == l.rec.asks
    ensures InOrder(S, s.durable, b.node) ==>
              && s'.durable == CommitDurable(S, s.durable, b, p)
              && CommitStopped(s'.rec, end)
    ensures !InOrder(S, s.durable, b.node) ==> s'.durable == s.durable && end == Panicked
  {
    s', end := CommitNode(S, b, s, l, p).0, CommitNode(S, b, s, l, p).1;
    if InOrder(S, s.durable, b.node) {
      var m := MeterAfter(S, b, l);
      SuspendStops(l.rec.trace, Budget.Snapshot(S.budget, m, b.stage.profile.role).sessionSpent,
                   StopEvent(b, StopEscalate));
      LastStopSnoc(l.rec.trace, StopEvent(b, StopDone));
    }
  }

  lemma {:induction false} StoredTold(S: Session, b: Boundary, s: RunState, s': RunState, end: NodeEnd, p: Product)
    requires s.rec.asks <= s'.rec.asks && EndedStored(S, b, s, s', end, p)
    ensures NodeTold(S, b, s, s', end)
  {
  }

  lemma {:induction false} PanickedTold(S: Session, b: Boundary, s: RunState, s': RunState)
    requires s.rec.asks <= s'.rec.asks && NoneRejected(s'.rec.asks) && s'.durable == s.durable
    ensures NodeTold(S, b, s, s', Panicked)
  {
    assert EndedUnstored(S, s, s', Panicked);
  }

  lemma {:induction false} CommitTold(S: Session, b: Boundary, s: RunState, l: Loop, p: Product)
    returns (s': RunState, end: NodeEnd)
    requires s.rec.asks <= l.rec.asks && NoneRejected(l.rec.asks) && Judged(S, b, p.out, l.rec.asks)
    ensures (s', end) == CommitNode(S, b, s, l, p) && NodeTold(S, b, s, s', end)
  {
    s', end := CommitParts(S, b, s, l, p);
    if InOrder(S, s.durable, b.node) {
      StoredTold(S, b, s, s', end, p);
    } else {
      PanickedTold(S, b, s, s');
    }
  }

  lemma {:induction false} FinishTold(S: Session, b: Boundary, s: RunState, before: seq<GateAsk>, t: Turn, i: nat)
    requires s.rec.asks <= before && NoneRejected(before) && !t.Again? && (t.Stop? ==> t.end != Committed)
    requires FlagDown(S, before, i) && AllPassed(S, b, None, OwedBefore(b.stage), before, i, |before|)
    requires TurnTold(S, before, t) && TurnPassed(S, b, before, t)
    ensures var (s', end) := FinishNode(S, b, s, t); NodeTold(S, b, s, s', end)
  {
    if t.Ready? {
      PassedStays(S, b, None, OwedBefore(b.stage), before, i, |before|, t.l.rec.asks);
      JudgedFrom(S, b, t.product.out, t.l.rec.asks, i, |before|);
      var _, _ := CommitTold(S, b, s, t.l, t.product);
    }
  }

  lemma {:induction false} PreStopTold(S: Session, b: Boundary, s: RunState, r: Recorder, pre: PreEnd)
    requires NoneRejected(s.rec.asks) && pre != PrePassed
    requires PreAsked(S, b, PreRefs(b.stage), s.rec.asks, r.asks, pre)
    ensures var (s', end) := PreStop(S, b, s, r, pre); NodeTold(S, b, s, s', end)
  {
    if pre == PreBudget {
      SuspendStops(r.trace, Budget.Snapshot(S.budget, s.meter, b.stage.profile.role).sessionSpent,
                   StopEvent(b, StopEscalate));
    } else {
      LastStopSnoc(r.trace, StopEvent(b, StopReject));
    }
  }

  lemma {:induction false} MadeWell(S: Session, s: RunState, n: NodeId, wave: nat)
    requires n in S.stages
    ensures WellMade(MakeBoundary(S, s, n, S.stages[n], wave))
  {
  }

  lemma {:induction false} PreOwed(S: Session, b: Boundary, before: seq<GateAsk>, after: seq<GateAsk>)
    requires PreAsked(S, b, PreRefs(b.stage), before, after, PrePassed)
    ensures AllPassed(S, b, None, OwedBefore(b.stage), after, |before|, |after|)
  {
    InTurnAllPassed(S, b, None, OwedBefore(b.stage), after, |before|);
  }

  /** One node: what it stored was judged in full, and if it did not commit the cause is on record. */
  lemma {:induction false} NodeIsTold(S: Session, s: RunState, n: NodeId, wave: nat, b: Boundary)
    requires n in S.stages && b == MakeBoundary(S, s, n, S.stages[n], wave) && NoneRejected(s.rec.asks)
    requires JustDown(S, s.rec)
    ensures var (s', end) := RunNode(S, s, n, wave); NodeTold(S, b, s, s', end)
  {
    var r0 := Emit(s.rec, NodeStart(n, S.stages[n].profile.role, wave));
    PreGatesAsk(S, b, s.meter, AttemptOf(s.attempts, n), PreRefs(S.stages[n]), r0);
    var (r, pre) := PreGates(S, b, s.meter, AttemptOf(s.attempts, n), PreRefs(S.stages[n]), r0);
    NodeUnfolded(S, s, n, wave, b, r, pre);
    if pre == PrePassed {
      var l := Loop(r, s.meter, s.routing, s.attempts, false);
      MadeWell(S, s, n, wave);
      PreOwed(S, b, s.rec.asks, r.asks);
      SomePreRefs(S.stages[n]);
      FirstAsked(S, b, s.meter, AttemptOf(s.attempts, n), PreRefs(S.stages[n]), r0);
      AttemptsTold(S, b, |s.durable.commits| + 1, l);
      StopIsNotCommitted(S, b, |s.durable.commits| + 1, l);
      FinishTold(S, b, s, r.asks, Attempts(S, b, |s.durable.commits| + 1, l), |s.rec.asks|);
    } else {
      PreStopTold(S, b, s, r, pre);
    }
  }
}
