/**
 * Handoff routing (crates/hesmos-orchestrator/src/router.rs) with the contract validator it
 * consumes (crates/hesmos-guard/src/contract_check.rs).
 */
module Router {
  import opened Core
  import opened Domain

  type Handoff = (NodeId, NodeId)

  // ---------------------------------------------------------------- contract validation

  predicate Blank(s: string) {
    Trim(s) == ""
  }

  /** The field-absence matrix, first failing row first. */
  function Validate(c: HandoffContract, task: string, floor: real): ContractJudgment {
    if c.goalOriginal != task then Reject("goal_original")
    else if c.snapshot.goalOriginal != task then Reject("goal_original")
    else if Blank(c.goalCurrent) then Reject("goal_current")
    else if c.invariants == [] then Reject("invariants")
    else if c.doneCriteria.None? || c.doneCriteria.value == [] then RejectNoRetry("done_criteria")
    else if c.assumptions.None? then Reject("assumptions")
    else if c.confidence.None? then Reject("confidence")
    else if c.confidence.value < floor then BoundedRetry
    else if c.artifacts.None? then PostGateFail("artifacts")
    else if c.failedApproaches.None? then WarnProceed("failed_approaches")
    else AcceptContract
  }

  /** Judgments that let a contract through to the loop guard. */
  predicate Passes(j: ContractJudgment) {
    j.AcceptContract? || j.WarnProceed? || j.PostGateFail?
  }

  /** The hard rows of the matrix, without an order among them. */
  ghost predicate HardRowsMet(c: HandoffContract, task: string) {
    && c.goalOriginal == task == c.snapshot.goalOriginal
    && !Blank(c.goalCurrent)
    && c.invariants != []
    && c.doneCriteria.Some? && c.doneCriteria.value != []
    && c.assumptions.Some?
    && c.confidence.Some?
  }

  /**
   * What the matrix decides: a contract passes exactly when every hard row is met and the
   * confidence reaches the floor, is retried exactly when only the floor is missed, and
   * absent artifacts outrank absent failed approaches.
   */
  lemma {:induction false} ValidateDecides(c: HandoffContract, task: string, floor: real)
    ensures var j := Validate(c, task, floor);
            && (Passes(j) <==> HardRowsMet(c, task) && c.confidence.value >= floor)
            && (j == BoundedRetry <==> HardRowsMet(c, task) && c.confidence.value < floor)
            && (j.PostGateFail? <==> Passes(j) && c.artifacts.None?)
            && (j.WarnProceed? <==> Passes(j) && c.artifacts.Some? && c.failedApproaches.None?)
  {
  }

  /** Row i of the field-absence matrix is not met. */
  ghost predicate RowFails(c: HandoffContract, task: string, i: nat) {
    match i
    case 0 => c.goalOriginal != task || c.snapshot.goalOriginal != task
    case 1 => Blank(c.goalCurrent)
    case 2 => c.invariants == []
    case 3 => c.doneCriteria.None? || c.doneCriteria.value == []
    case 4 => c.assumptions.None?
    case 5 => c.confidence.None?
    case _ => false
  }

  /** What a contract is told whose first row not met is row i: the row's field; missing criteria are final. */
  function RowJudgment(i: nat): ContractJudgment {
    match i
    case 0 => Reject("goal_original")
    case 1 => Reject("goal_current")
    case 2 => Reject("invariants")
    case 3 => RejectNoRetry("done_criteria")
    case 4 => Reject("assumptions")
    case _ => Reject("confidence")
  }

  /** Row i is the first that is not met. */
  ghost predicate FirstFails(c: HandoffContract, task: string, i: nat) {
    RowFails(c, task, i) && forall k: nat | k < i :: !RowFails(c, task, k)
  }

  /** A contract is rejected exactly if some row is not met, and is told the first one. */
  lemma {:induction false} RejectionNamesRow(c: HandoffContract, task: string, floor: real) returns (i: nat)
    ensures var j := Validate(c, task, floor);
            if j.Reject? || j.RejectNoRetry? then FirstFails(c, task, i) && j == RowJudgment(i)
            else forall k: nat :: !RowFails(c, task, k)
  {
    i := if RowFails(c, task, 0) then 0 else if RowFails(c, task, 1) then 1 else if RowFails(c, task, 2) then 2
         else if RowFails(c, task, 3) then 3 else if RowFails(c, task, 4) then 4 else 5;
  }

  // ---------------------------------------------------------------- the loop guard

  /** Loop-guard state: bounded window, cumulative count and halt latch. */
  datatype Guard = Guard(window: seq<Handoff>, total: nat, halted: Option<ReasonCode>)

  const FRESH_GUARD := Guard([], 0, None)

  predicate SamePair(h: Handoff, from: NodeId, to: NodeId) {
    (h.0 == from && h.1 == to) || (h.0 == to && h.1 == from)
  }

  predicate Recurs(window: seq<Handoff>, from: NodeId, to: NodeId) {
    exists i | 0 <= i < |window| :: SamePair(window[i], from, to)
  }

  /** The reason a proposed handoff is stopped, if it is: latch, then cap, then recurrence. */
  function Evaluate(p: PolicySet, g: Guard, from: NodeId, to: NodeId): Option<ReasonCode> {
    if g.halted.Some? then g.halted
    else if g.total >= p.maxHandoffs then Some(MAX_HANDOFFS)
    else if Recurs(g.window, from, to) then Some(REPETITIVE_HANDOFF)
    else None
  }

  function Latch(g: Guard, reason: ReasonCode): Guard {
    if g.halted.None? then g.(halted := Some(reason)) else g
  }

  function Record(p: PolicySet, g: Guard, h: Handoff): Guard {
    if p.pingPongWindow == 0 then
      g.(total := g.total + 1, halted := if g.total + 1 >= p.maxHandoffs then Some(MAX_HANDOFFS) else g.halted)
    else
      var kept := if |g.window| >= p.pingPongWindow then g.window[1..] else g.window;
      Guard(kept + [h], g.total + 1,
            if g.total + 1 >= p.maxHandoffs && g.halted.None? then Some(MAX_HANDOFFS) else g.halted)
  }

  // ---------------------------------------------------------------- the router

  datatype RouterState = RouterState(guard: Guard, retries: map<NodeId, nat>)

  function RetriesOf(r: RouterState, n: NodeId): nat {
    if n in r.retries then r.retries[n] else 0
  }

  /** One routing decision: validation, then the loop guard, then accept and record. */
  function Route(p: PolicySet, task: string, r: RouterState, c: HandoffContract): (RouterState, RouteDecision) {
    var j := Validate(c, task, p.minConfidence);
    if j.Reject? || j.RejectNoRetry? then (r, ReturnToSender(GATE_REJECT))
    else if j.BoundedRetry? then
      var spent := RetriesOf(r, c.fromNode);
      var r' := r.(retries := r.retries[c.fromNode := spent + 1]);
      if spent >= p.boundedRetry then (r', ReturnToSender(GATE_REJECT))
      else (r', RetryBounded(GATE_REJECT, p.boundedRetry - spent))
    else if c.toNode.None? then (r, ReturnToSender(GATE_REJECT))
    else
      var to := c.toNode.value;
      match Evaluate(p, r.guard, c.fromNode, to)
      case Some(reason) => (r.(guard := Latch(r.guard, reason)), Halt(reason))
      case None => (r.(guard := Record(p, r.guard, (c.fromNode, to))), Accept(to))
  }

  // ---------------------------------------------------------------- refinement to histories

  /** The last n elements. */
  function LastN<T>(s: seq<T>, n: nat): seq<T> {
    if |s| <= n then s else s[|s| - n..]
  }

  /**
   * The guard state is determined by the full history of accepted handoffs: it counts them
   * all and remembers the last `ping_pong_window` of them.
   */
  ghost predicate Refines(p: PolicySet, g: Guard, history: seq<Handoff>) {
    && g.total == |history|
    && g.window == LastN(history, p.pingPongWindow)
    && (g.halted.None? ==> |history| < p.maxHandoffs || |history| == 0)
    && (g.halted.Some? ==> g.halted.value == MAX_HANDOFFS || g.halted.value == REPETITIVE_HANDOFF)
    && (g.halted == Some(MAX_HANDOFFS) ==> |history| >= p.maxHandoffs)
    && |history| <= p.maxHandoffs
  }

  /** The specification over the full history of what a proposed handoff meets. */
  ghost function HistoryVerdict(p: PolicySet, history: seq<Handoff>, latched: Option<ReasonCode>, from: NodeId,
                                to: NodeId): Option<ReasonCode>
  {
    if latched.Some? then latched
    else if |history| >= p.maxHandoffs then Some(MAX_HANDOFFS)
    else if exists i :: |history| - p.pingPongWindow <= i < |history| && 0 <= i && SamePair(history[i], from, to)
      then Some(REPETITIVE_HANDOFF)
    else None
  }

  /** The guard decides as the full history demands. */
  lemma {:induction false} EvaluateRefines(p: PolicySet, g: Guard, history: seq<Handoff>, from: NodeId, to: NodeId)
    requires Refines(p, g, history)
    ensures Evaluate(p, g, from, to) == HistoryVerdict(p, history, g.halted, from, to)
  {
    var w := LastN(history, p.pingPongWindow);
    var off := |history| - |w|;
    assert forall i | 0 <= i < |w| :: w[i] == history[off + i];
    if i :| |history| - p.pingPongWindow <= i < |history| && 0 <= i && SamePair(history[i], from, to) {
      assert w[i - off] == history[i];
    }
  }

  lemma {:induction false} RecordRefines(p: PolicySet, g: Guard, history: seq<Handoff>, h: Handoff)
    requires Refines(p, g, history) && Evaluate(p, g, h.0, h.1) == None
    ensures Refines(p, Record(p, g, h), history + [h])
  {
    var n := p.pingPongWindow;
    assert n > 0 ==> LastN(history + [h], n) == (if |g.window| >= n then g.window[1..] else g.window) + [h];
  }

  /** One routing step over the full history: only an accept extends it. */
  lemma {:induction false} RouteRefines(p: PolicySet, task: string, r: RouterState, history: seq<Handoff>,
                                        c: HandoffContract)
    requires Refines(p, r.guard, history)
    ensures var (r', d) := Route(p, task, r, c);
            && Refines(p, r'.guard, if d.Accept? then history + [(c.fromNode, d.to)] else history)
            && (d.Accept? ==> c.toNode == Some(d.to) && r'.retries == r.retries)
            && (r.guard.halted.Some? ==> !d.Accept? && r'.guard == r.guard)
            && (d.Halt? ==> r'.guard.halted == Some(d.reason))
  {
    if c.toNode.Some? {
      EvaluateRefines(p, r.guard, history, c.fromNode, c.toNode.value);
      if Evaluate(p, r.guard, c.fromNode, c.toNode.value) == None {
        RecordRefines(p, r.guard, history, (c.fromNode, c.toNode.value));
      }
    }
  }

  /** Two handoffs of the same unordered pair have at least a window of others between them. */
  ghost predicate WellSpaced(p: PolicySet, history: seq<Handoff>) {
    forall i, j | 0 <= i < j < |history| && SamePair(history[i], history[j].0, history[j].1) ::
      j - i > p.pingPongWindow
  }

  // ---------------------------------------------------------------- whole sessions of routing

  /** The state and history after routing a list of contracts from a fresh router. */
  function RouteAll(p: PolicySet, task: string, cs: seq<HandoffContract>): (RouterState, seq<Handoff>) {
    if cs == [] then (RouterState(FRESH_GUARD, map[]), []) else
      var (r, history) := RouteAll(p, task, cs[..|cs| - 1]);
      var c := cs[|cs| - 1];
      var (r', d) := Route(p, task, r, c);
      (r', if d.Accept? then history + [(c.fromNode, d.to)] else history)
  }

  /**
   * Over any sequence of routed contracts: the guard refines the history, the history never
   * exceeds the cap, and recurrences are more than a window apart.
   */
  lemma {:induction false} RoutingIsSafe(p: PolicySet, task: string, cs: seq<HandoffContract>)
    ensures var (r, history) := RouteAll(p, task, cs);
            Refines(p, r.guard, history) && |history| <= p.maxHandoffs && WellSpaced(p, history)
    decreases |cs|
  {
    if cs != [] {
      var c := cs[|cs| - 1];
      RoutingIsSafe(p, task, cs[..|cs| - 1]);
      var (r, history) := RouteAll(p, task, cs[..|cs| - 1]);
      RouteRefines(p, task, r, history, c);
      var (r', d) := Route(p, task, r, c);
      if d.Accept? {
        EvaluateRefines(p, r.guard, history, c.fromNode, d.to);
        AcceptKeepsSpacing(p, history, c.fromNode, d.to);
      }
    }
  }

  lemma {:induction false} AcceptKeepsSpacing(p: PolicySet, history: seq<Handoff>, from: NodeId, to: NodeId)
    requires WellSpaced(p, history) && HistoryVerdict(p, history, None, from, to) == None
    ensures WellSpaced(p, history + [(from, to)])
  {
    var h := history + [(from, to)];
    forall i, j | 0 <= i < j < |h| && SamePair(h[i], h[j].0, h[j].1) ensures j - i > p.pingPongWindow {
      if j == |history| {
        assert SamePair(history[i], from, to);
      } else {
        assert SamePair(history[i], history[j].0, history[j].1);
      }
    }
  }

  /** Once latched, no later contract is accepted and the latched reason stays. */
  lemma {:induction false} LatchIsForever(p: PolicySet, task: string, cs: seq<HandoffContract>,
                                          later: seq<HandoffContract>)
    requires RouteAll(p, task, cs).0.guard.halted.Some?
    ensures RouteAll(p, task, cs + later).0.guard == RouteAll(p, task, cs).0.guard
    ensures RouteAll(p, task, cs + later).1 == RouteAll(p, task, cs).1
    decreases |later|
  {
    var all := cs + later;
    if later == [] {
      assert all == cs;
    } else {
      assert all[..|all| - 1] == cs + later[..|later| - 1];
      LatchIsForever(p, task, cs, later[..|later| - 1]);
      var (r, history) := RouteAll(p, task, all[..|all| - 1]);
      RoutingIsSafe(p, task, all[..|all| - 1]);
      RouteRefines(p, task, r, history, all[|all| - 1]);
    }
  }

  /**
   * The claim that every route answers Halt after a latch fails for contracts that validation
   * stops first: a latched router halts exactly the contracts that pass and name a destination.
   */
  lemma {:induction false} LatchedHaltsExactly(p: PolicySet, task: string, r: RouterState, c: HandoffContract)
    requires r.guard.halted.Some?
    ensures Route(p, task, r, c).1.Halt? <==> Passes(Validate(c, task, p.minConfidence)) && c.toNode.Some?
    ensures Route(p, task, r, c).1.Halt? ==> Route(p, task, r, c).1.reason == r.guard.halted.value
  {
  }

  /** A latched router sends a contract without invariants back instead of halting. */
  lemma {:induction false} LatchedStillReturns(p: PolicySet, c: HandoffContract, guard: Guard)
    requires guard.halted.Some? && c.invariants == []
    ensures Route(p, c.goalOriginal, RouterState(guard, map[]), c).1 == ReturnToSender(GATE_REJECT)
  {
  }

  // ---------------------------------------------------------------- every decision

  /** How many of the contracts are from the sender and miss only the confidence floor. */
  ghost function BelowFloor(p: PolicySet, task: string, cs: seq<HandoffContract>, n: NodeId): nat {
    if cs == [] then 0 else
      var c := cs[|cs| - 1];
      BelowFloor(p, task, cs[..|cs| - 1], n)
        + if c.fromNode == n && HardRowsMet(c, task) && c.confidence.value < p.minConfidence then 1 else 0
  }

  /** The retry counter of a sender counts its contracts below the floor. */
  lemma {:induction false} RetriesCount(p: PolicySet, task: string, cs: seq<HandoffContract>, n: NodeId)
    ensures RetriesOf(RouteAll(p, task, cs).0, n) == BelowFloor(p, task, cs, n)
    decreases |cs|
  {
    if cs != [] {
      RetriesCount(p, task, cs[..|cs| - 1], n);
      ValidateDecides(cs[|cs| - 1], task, p.minConfidence);
    }
  }

  /** The reason that stops a handoff after these contracts, if any. */
  ghost function StopReason(p: PolicySet, task: string, cs: seq<HandoffContract>, from: NodeId, to: NodeId)
    : Option<ReasonCode>
  {
    HistoryVerdict(p, RouteAll(p, task, cs).1, RouteAll(p, task, cs).0.guard.halted, from, to)
  }

  /**
   * Every decision after any contracts: a contract with an unmet hard row or without a
   * destination goes back; the k-th of a sender below the floor is granted bound - k + 1
   * retries and goes back past the bound; any other is accepted for its destination, or
   * halted for the reason that the history gives.
   */
  lemma {:induction false} RouteDecides(p: PolicySet, task: string, cs: seq<HandoffContract>, c: HandoffContract)
    ensures var d := Route(p, task, RouteAll(p, task, cs).0, c).1;
            if !HardRowsMet(c, task) then d == ReturnToSender(GATE_REJECT)
            else if c.confidence.value < p.minConfidence then
              var k := BelowFloor(p, task, cs + [c], c.fromNode);
              if k <= p.boundedRetry then d == RetryBounded(GATE_REJECT, p.boundedRetry - k + 1)
              else d == ReturnToSender(GATE_REJECT)
            else if c.toNode.None? then d == ReturnToSender(GATE_REJECT)
            else
              var stop := StopReason(p, task, cs, c.fromNode, c.toNode.value);
              d == if stop.Some? then Halt(stop.value) else Accept(c.toNode.value)
  {
    assert (cs + [c])[..|cs|] == cs;
    RetriesCount(p, task, cs, c.fromNode);
    ValidateDecides(c, task, p.minConfidence);
    RoutingIsSafe(p, task, cs);
    var (r, history) := RouteAll(p, task, cs);
    if c.toNode.Some? {
      EvaluateRefines(p, r.guard, history, c.fromNode, c.toNode.value);
    }
  }

  // ---------------------------------------------------------------- the stateful router

  class LoopGuardState {
    const policy: PolicySet
    var window: seq<Handoff>
    var total: nat
    var halted: Option<ReasonCode>

    constructor (policy: PolicySet)
      ensures this.policy == policy && Abs() == FRESH_GUARD
    {
      this.policy := policy;
      window, total, halted := [], 0, None;
    }

    function Abs(): Guard
      reads this
    {
      Guard(window, total, halted)
    }

    method LatchHalt(reason: ReasonCode)
      modifies this
      ensures Abs() == Latch(old(Abs()), reason)
    {
      if halted.None? {
        halted := Some(reason);
      }
    }

    /** Scans the window for the pair, in either direction. */
    method EvaluateHandoff(from: NodeId, to: NodeId) returns (stop: Option<ReasonCode>)
      ensures stop == Evaluate(policy, Abs(), from, to)
    {
      if halted.Some? {
        return halted;
      }
      if total >= policy.maxHandoffs {
        return Some(MAX_HANDOFFS);
      }
      var i := 0;
      while i < |window|
        invariant 0 <= i <= |window|
        invariant forall k | 0 <= k < i :: !SamePair(window[k], from, to)
      {
        if SamePair(window[i], from, to) {
          return Some(REPETITIVE_HANDOFF);
        }
        i := i + 1;
      }
      return None;
    }

    method RecordHandoff(from: NodeId, to: NodeId)
      modifies this
      ensures Abs() == Record(policy, old(Abs()), (from, to))
    {
      if policy.pingPongWindow == 0 {
        total := total + 1;
        if total >= policy.maxHandoffs {
          halted := Some(MAX_HANDOFFS);
        }
        return;
      }
      if |window| >= policy.pingPongWindow {
        window := window[1..];
      }
      window := window + [(from, to)];
      total := total + 1;
      if total >= policy.maxHandoffs && halted.None? {
        halted := Some(MAX_HANDOFFS);
      }
    }
  }

  class LoopGuardRouter {
    const task: string
    const policy: PolicySet
    const guards: LoopGuardState
    var retries: map<NodeId, nat>

    constructor (task: string, policy: PolicySet)
      ensures this.task == task && this.policy == policy && Valid()
      ensures fresh(guards) && Abs() == RouterState(FRESH_GUARD, map[])
    {
      this.task, this.policy := task, policy;
      guards := new LoopGuardState(policy);
      retries := map[];
    }

    ghost predicate Valid() {
      guards.policy == policy
    }

    function Abs(): RouterState
      reads this, guards
    {
      RouterState(guards.Abs(), retries)
    }

    method RouteContract(c: HandoffContract) returns (d: RouteDecision)
      requires Valid()
      modifies this, guards
      ensures (Abs(), d) == Route(policy, task, old(Abs()), c)
    {
      match Validate(c, task, policy.minConfidence) {
        case AcceptContract =>
        case WarnProceed(_) =>
        case PostGateFail(_) =>
        case Reject(_) => return ReturnToSender(GATE_REJECT);
        case RejectNoRetry(_) => return ReturnToSender(GATE_REJECT);
        case BoundedRetry =>
          var consumed := if c.fromNode in retries then retries[c.fromNode] else 0;
          retries := retries[c.fromNode := consumed + 1];
          var left := if consumed <= policy.boundedRetry then policy.boundedRetry - consumed else 0;
          if left == 0 {
            return ReturnToSender(GATE_REJECT);
          }
          return RetryBounded(GATE_REJECT, left);
      }
      if c.toNode.None? {
        return ReturnToSender(GATE_REJECT);
      }
      var to := c.toNode.value;
      var stop := guards.EvaluateHandoff(c.fromNode, to);
      if stop.Some? {
        guards.LatchHalt(stop.value);
        return Halt(stop.value);
      }
      guards.RecordHandoff(c.fromNode, to);
      return Accept(to);
    }
  }
}
