/**
 * Budget metering: percent lines (crates/hesmos-budget/src/envelope.rs), threshold verdicts
 * (thresholds.rs), the ledger table (ledger.rs) as its sequence of rows, the spend snapshot
 * (crates/hesmos-core/src/budget_state.rs) and the conductor that joins them
 * (hesmos/src/composition.rs).
 */
module Budget {
  import opened Core

  // ---------------------------------------------------------------- percent lines

  datatype BudgetEnvelope = BudgetEnvelope(
    sessionMax: Option<u64>,
    teamMax: Option<u64>,
    agentMax: map<AgentRole, u64>,
    warnPct: u8,
    suspendPct: u8)

  /** pct percent of a cap, truncating, and wrapping into 64 bits at the end. */
  function PctOf(total: Option<u64>, pct: u8): Option<u64> {
    match total
    case None => None
    case Some(t) => Some((t * pct / 100) % TWO64)
  }

  /** The warn and suspend lines of one scope; absent without a cap. */
  datatype Lines = Lines(warn: Option<u64>, suspend: Option<u64>)

  /** The budget frozen for a session: the lines of every scope. */
  datatype SessionBudget = SessionBudget(session: Lines, team: Lines, agents: map<AgentRole, Lines>)

  function LinesOf(b: BudgetEnvelope, cap: Option<u64>): Lines {
    Lines(PctOf(cap, b.warnPct), PctOf(cap, b.suspendPct))
  }

  function Freeze(b: BudgetEnvelope): SessionBudget {
    SessionBudget(
      LinesOf(b, b.sessionMax),
      LinesOf(b, b.teamMax),
      map role | role in b.agentMax :: LinesOf(b, Some(b.agentMax[role])))
  }

  function AgentLines(b: SessionBudget, role: AgentRole): Lines {
    if role in b.agents then b.agents[role] else Lines(None, None)
  }

  /** A scope that can warn can also suspend: both lines come from the same cap. */
  ghost predicate Paired(b: SessionBudget) {
    && (b.session.warn.Some? ==> b.session.suspend.Some?)
    && (b.team.warn.Some? ==> b.team.suspend.Some?)
    && forall role | role in b.agents :: b.agents[role].warn.Some? ==> b.agents[role].suspend.Some?
  }

  lemma {:induction false} FrozenIsPaired(b: BudgetEnvelope)
    ensures Paired(Freeze(b))
  {
  }

  /**
   * The line is the largest whole number of tokens within pct percent of the cap, exactly as
   * long as that number fits 64 bits, as it does for percentages up to 100; past that it wraps.
   */
  lemma {:induction false} PctOfTruncates(t: u64, pct: u8)
    ensures var line := PctOf(Some(t), pct).value;
            var whole := t * pct / 100;
            && whole * 100 <= t * pct < whole * 100 + 100
            && line == whole % TWO64
            && (pct <= 100 ==> line == whole <= t)
            && (line == whole <==> t * pct < TWO64 * 100)
  {
    if pct <= 100 {
      PctBound(t, pct);
    }
  }

  /** A line set by this percentage of this cap; none without a cap. */
  ghost predicate LineOf(line: Option<u64>, cap: Option<u64>, pct: u8) {
    && (line.Some? <==> cap.Some?)
    && (cap.Some? ==> line.value == (cap.value * pct / 100) % TWO64)
  }

  ghost predicate LinesFrom(l: Lines, b: BudgetEnvelope, cap: Option<u64>) {
    LineOf(l.warn, cap, b.warnPct) && LineOf(l.suspend, cap, b.suspendPct)
  }

  /** The cap of a role, if it has one. */
  function AgentCap(b: BudgetEnvelope, role: AgentRole): Option<u64> {
    if role in b.agentMax then Some(b.agentMax[role]) else None
  }

  /** Every scope's two lines are the percentages of that scope's own cap. */
  lemma {:induction false} FrozenLines(b: BudgetEnvelope, role: AgentRole)
    ensures var s := Freeze(b);
            && LinesFrom(s.session, b, b.sessionMax) && LinesFrom(s.team, b, b.teamMax)
            && LinesFrom(AgentLines(s, role), b, AgentCap(b, role))
            && (role in s.agents <==> role in b.agentMax)
  {
  }

  lemma {:induction false} PctBound(t: u64, pct: u8)
    requires pct <= 100
    ensures t * pct <= t * 100
  {
  }

  /** Truncation keeps every line at or below its cap exactly for percentages up to 100. */
  lemma {:induction false} LinesStayBelowCaps(pct: u8)
    ensures (forall t: u64 :: PctOf(Some(t), pct).value <= t) <==> pct <= 100
  {
    if pct <= 100 {
      forall t: u64 ensures PctOf(Some(t), pct).value <= t {
        PctOfTruncates(t, pct);
      }
    } else {
      assert PctOf(Some(100), pct).value == pct;
    }
  }

  // ---------------------------------------------------------------- snapshots and verdicts

  datatype BudgetState = BudgetState(
    sessionSpent: nat,
    sessionWarnLimit: Option<u64>,
    sessionSuspendLimit: Option<u64>,
    teamSpent: nat,
    teamSuspendLimit: Option<u64>,
    agentSpent: nat,
    agentSuspendLimit: Option<u64>)

  predicate LineReached(limit: Option<u64>, spent: nat) {
    limit.Some? && spent >= limit.value
  }

  predicate SuspendReached(s: BudgetState) {
    || LineReached(s.sessionSuspendLimit, s.sessionSpent)
    || LineReached(s.teamSuspendLimit, s.teamSpent)
    || LineReached(s.agentSuspendLimit, s.agentSpent)
  }

  datatype Scope = SessionScope | TeamScope | AgentScope

  datatype ThresholdVerdict =
    | Clear
    | Warn(scope: Scope, spent: nat, remaining: Option<nat>)
    | Exceeded(scope: Scope)

  function StateOf(b: SessionBudget, sessionSpent: nat, teamSpent: nat, role: AgentRole, agentSpent: nat): BudgetState {
    BudgetState(
      sessionSpent, b.session.warn, b.session.suspend,
      teamSpent, b.team.suspend,
      agentSpent, AgentLines(b, role).suspend)
  }

  function Remaining(limit: Option<u64>, spent: nat): Option<nat> {
    match limit
    case None => None
    case Some(l) => Some(if l >= spent then l - spent else 0)
  }

  predicate Crosses(limit: Option<u64>, spent: nat, fired: set<Scope>, scope: Scope) {
    LineReached(limit, spent) && scope !in fired
  }

  /** Verdict and fired-warning set after one evaluation of the three scopes. */
  function Evaluate(b: SessionBudget, fired: set<Scope>, sessionSpent: nat, teamSpent: nat, role: AgentRole,
                    agentSpent: nat)
    : (ThresholdVerdict, set<Scope>)
  {
    var agent := AgentLines(b, role);
    if LineReached(b.session.suspend, sessionSpent) then (Exceeded(SessionScope), fired)
    else if LineReached(b.team.suspend, teamSpent) then (Exceeded(TeamScope), fired)
    else if LineReached(agent.suspend, agentSpent) then (Exceeded(AgentScope), fired)
    else if Crosses(b.session.warn, sessionSpent, fired, SessionScope) then
      (Warn(SessionScope, sessionSpent, Remaining(b.session.suspend, sessionSpent)), fired + {SessionScope})
    else if Crosses(b.team.warn, teamSpent, fired, TeamScope) then
      (Warn(TeamScope, teamSpent, Remaining(b.team.suspend, teamSpent)), fired + {TeamScope})
    else if Crosses(agent.warn, agentSpent, fired, AgentScope) then
      (Warn(AgentScope, agentSpent, Remaining(agent.suspend, agentSpent)), fired + {AgentScope})
    else (Clear, fired)
  }

  function ScopeSpent(s: BudgetState, scope: Scope): nat {
    match scope
    case SessionScope => s.sessionSpent
    case TeamScope => s.teamSpent
    case AgentScope => s.agentSpent
  }

  function ScopeSuspendLimit(s: BudgetState, scope: Scope): Option<u64> {
    match scope
    case SessionScope => s.sessionSuspendLimit
    case TeamScope => s.teamSuspendLimit
    case AgentScope => s.agentSuspendLimit
  }

  /**
   * The engine and the snapshot agree: Exceeded exactly when the snapshot has a suspend line
   * reached. A warning is the first of its scope and leaves a positive remainder that, with
   * the spend, makes up the suspend line.
   */
  lemma {:induction false} EvaluateAgreesWithSnapshot(b: SessionBudget, fired: set<Scope>, ss: nat, ts: nat,
                                                      role: AgentRole, spent: nat)
    requires Paired(b)
    ensures var (v, fired') := Evaluate(b, fired, ss, ts, role, spent);
            var snap := StateOf(b, ss, ts, role, spent);
            && (v.Exceeded? <==> SuspendReached(snap))
            && (v.Exceeded? ==> LineReached(ScopeSuspendLimit(snap, v.scope), ScopeSpent(snap, v.scope)))
            && (v.Warn? ==>
                  && v.scope !in fired && fired' == fired + {v.scope}
                  && v.spent == ScopeSpent(snap, v.scope)
                  && v.remaining.Some? && v.remaining.value > 0
                  && ScopeSuspendLimit(snap, v.scope) == Some(v.spent + v.remaining.value))
            && (!v.Warn? ==> fired' == fired)
  {
  }

  // ---------------------------------------------------------------- the ledger

  datatype MeterKind = Llm | Tool

  datatype MeterRow = MeterRow(rowSeq: nat, team: Option<Id>, role: AgentRole, kind: MeterKind, tokensIn: nat,
                               tokensOut: nat)

  datatype TokenTotals = TokenTotals(tokensIn: nat, tokensOut: nat)

  /** All tokens of the rows. */
  function TotalOf(rows: seq<MeterRow>): nat {
    if rows == [] then 0 else TotalOf(rows[..|rows| - 1]) + rows[|rows| - 1].tokensIn + rows[|rows| - 1].tokensOut
  }

  /** All tokens of the rows of one role. */
  function RoleTotal(rows: seq<MeterRow>, role: AgentRole): nat {
    if rows == [] then 0 else
      var rest := RoleTotal(rows[..|rows| - 1], role);
      var r := rows[|rows| - 1];
      if r.role == role then rest + r.tokensIn + r.tokensOut else rest
  }

  lemma {:induction false} TotalAppend(rows: seq<MeterRow>, r: MeterRow)
    ensures TotalOf(rows + [r]) == TotalOf(rows) + r.tokensIn + r.tokensOut
  {
    assert (rows + [r])[..|rows|] == rows;
  }

  lemma {:induction false} RoleTotalAppend(rows: seq<MeterRow>, r: MeterRow, role: AgentRole)
    ensures RoleTotal(rows + [r], role) == RoleTotal(rows, role) + if role == r.role then r.tokensIn + r.tokensOut
            else 0
  {
    assert (rows + [r])[..|rows|] == rows;
  }

  lemma {:induction false} TotalIsSum(rows: seq<MeterRow>)
    ensures TotalOf(rows) == SumRows(rows).tokensIn + SumRows(rows).tokensOut
    decreases |rows|
  {
    if rows != [] {
      TotalIsSum(rows[..|rows| - 1]);
    }
  }

  lemma {:induction false} RoleTotalIsSum(rows: seq<MeterRow>, role: AgentRole)
    ensures RoleTotal(rows, role) == SumRole(rows, role).tokensIn + SumRole(rows, role).tokensOut
    decreases |rows|
  {
    if rows != [] {
      RoleTotalIsSum(rows[..|rows| - 1], role);
    }
  }

  function SumRows(rows: seq<MeterRow>): TokenTotals {
    if rows == [] then TokenTotals(0, 0) else
      var t := SumRows(rows[..|rows| - 1]);
      var r := rows[|rows| - 1];
      TokenTotals(t.tokensIn + r.tokensIn, t.tokensOut + r.tokensOut)
  }

  /** The sum of the rows of one role. */
  function SumRole(rows: seq<MeterRow>, role: AgentRole): TokenTotals {
    if rows == [] then TokenTotals(0, 0) else
      var t := SumRole(rows[..|rows| - 1], role);
      var r := rows[|rows| - 1];
      if r.role == role then TokenTotals(t.tokensIn + r.tokensIn, t.tokensOut + r.tokensOut) else t
  }

  function MaxSeq(rows: seq<MeterRow>): nat {
    if rows == [] then 0 else Max(MaxSeq(rows[..|rows| - 1]), rows[|rows| - 1].rowSeq)
  }

  /** Row numbers are dense from 1. */
  ghost predicate Dense(rows: seq<MeterRow>) {
    forall i | 0 <= i < |rows| :: rows[i].rowSeq == i + 1
  }

  lemma {:induction false} DenseMax(rows: seq<MeterRow>)
    requires Dense(rows)
    ensures MaxSeq(rows) == |rows|
    decreases |rows|
  {
    if rows != [] {
      DenseMax(rows[..|rows| - 1]);
    }
  }

  lemma {:induction false} SumRoleAppend(rows: seq<MeterRow>, r: MeterRow, role: AgentRole)
    ensures SumRole(rows + [r], role)
            == if role == r.role then TokenTotals(SumRole(rows, role).tokensIn + r.tokensIn,
                                                  SumRole(rows, role).tokensOut + r.tokensOut)
               else SumRole(rows, role)
  {
    assert (rows + [r])[..|rows|] == rows;
  }

  class Ledger {
    var rows: seq<MeterRow>

    constructor ()
      ensures rows == []
    {
      rows := [];
    }

    /** Appends one row numbered one past the highest number in use. */
    method Record(team: Option<Id>, role: AgentRole, kind: MeterKind, tokensIn: nat, tokensOut: nat)
      returns (rowSeq: nat)
      modifies this
      ensures rowSeq == MaxSeq(old(rows)) + 1
      ensures rows == old(rows) + [MeterRow(rowSeq, team, role, kind, tokensIn, tokensOut)]
    {
      rowSeq := MaxSeq(rows) + 1;
      rows := rows + [MeterRow(rowSeq, team, role, kind, tokensIn, tokensOut)];
    }

    method SessionTotals() returns (t: TokenTotals)
      ensures t == SumRows(rows) && t.tokensIn + t.tokensOut == TotalOf(rows)
    {
      t := TokenTotals(0, 0);
      var i := 0;
      while i < |rows|
        invariant 0 <= i <= |rows|
        invariant t == SumRows(rows[..i])
      {
        assert rows[..i + 1][..i] == rows[..i];
        t := TokenTotals(t.tokensIn + rows[i].tokensIn, t.tokensOut + rows[i].tokensOut);
        i := i + 1;
      }
      assert rows[..i] == rows;
      TotalIsSum(rows);
    }

    /** The group-by: each role that has rows, with the sum of its rows. */
    method TotalsByAgent() returns (totals: map<AgentRole, TokenTotals>)
      ensures GroupsBy(rows, totals)
    {
      totals := map[];
      var i := 0;
      while i < |rows|
        invariant 0 <= i <= |rows|
        invariant GroupsBy(rows[..i], totals)
      {
        var r := rows[i];
        assert rows[..i + 1] == rows[..i] + [r];
        GroupsByAppend(rows[..i], totals, r);
        var t := if r.role in totals then totals[r.role] else TokenTotals(0, 0);
        totals := totals[r.role := TokenTotals(t.tokensIn + r.tokensIn, t.tokensOut + r.tokensOut)];
        i := i + 1;
      }
      assert rows[..i] == rows;
    }
  }

  ghost predicate GroupsBy(rows: seq<MeterRow>, totals: map<AgentRole, TokenTotals>) {
    && totals.Keys == RolesOf(rows)
    && forall role | role in totals :: totals[role] == SumRole(rows, role)
  }

  lemma {:induction false} GroupsByAppend(rows: seq<MeterRow>, totals: map<AgentRole, TokenTotals>, r: MeterRow)
    requires GroupsBy(rows, totals)
    ensures var t := if r.role in totals then totals[r.role] else TokenTotals(0, 0);
            GroupsBy(rows + [r], totals[r.role := TokenTotals(t.tokensIn + r.tokensIn, t.tokensOut + r.tokensOut)])
  {
    var t := if r.role in totals then totals[r.role] else TokenTotals(0, 0);
    var totals' := totals[r.role := TokenTotals(t.tokensIn + r.tokensIn, t.tokensOut + r.tokensOut)];
    RolesAppend(rows, r);
    NoRowsNoSum(rows, r.role);
    forall role | role in totals' ensures totals'[role] == SumRole(rows + [r], role) {
      SumRoleAppend(rows, r, role);
    }
  }

  function RolesOf(rows: seq<MeterRow>): set<AgentRole> {
    set r | r in rows :: r.role
  }

  lemma {:induction false} NoRowsNoSum(rows: seq<MeterRow>, role: AgentRole)
    ensures role !in RolesOf(rows) ==> SumRole(rows, role) == TokenTotals(0, 0)
    decreases |rows|
  {
    if rows != [] {
      var last := rows[|rows| - 1];
      NoRowsNoSum(rows[..|rows| - 1], role);
      assert last in rows;
      assert RolesOf(rows[..|rows| - 1]) <= RolesOf(rows) by {
        forall r | r in rows[..|rows| - 1] ensures r.role in RolesOf(rows) {
          assert r in rows;
        }
      }
    }
  }

  // ---------------------------------------------------------------- the conductor

  datatype SpendVerdict = SpendClear | SpendWarn(spent: nat, remaining: Option<nat>) | SpendExceeded

  /** The metering state: ledger rows, in-memory spends and fired warnings. */
  datatype Meter = Meter(rows: seq<MeterRow>, agentSpent: map<AgentRole, nat>, teamSpent: nat, fired: set<Scope>)

  const FRESH_METER := Meter([], map[], 0, {})

  function AgentSpentOf(m: Meter, role: AgentRole): nat {
    if role in m.agentSpent then m.agentSpent[role] else 0
  }

  function SessionSpentOf(m: Meter): nat {
    TotalOf(m.rows)
  }

  function Snapshot(b: SessionBudget, m: Meter, role: AgentRole): BudgetState {
    StateOf(b, SessionSpentOf(m), m.teamSpent, role, AgentSpentOf(m, role))
  }

  /** The ledger row and the in-memory spends of one finished call. */
  function Charge(m: Meter, team: Option<Id>, role: AgentRole, kind: MeterKind, tokensIn: nat, tokensOut: nat): Meter {
    Meter(
      m.rows + [MeterRow(MaxSeq(m.rows) + 1, team, role, kind, tokensIn, tokensOut)],
      m.agentSpent[role := AgentSpentOf(m, role) + tokensIn + tokensOut],
      m.teamSpent + tokensIn + tokensOut,
      m.fired)
  }

  function ToSpend(v: ThresholdVerdict): SpendVerdict {
    match v
    case Clear => SpendClear
    case Warn(_, spent, remaining) => SpendWarn(spent, remaining)
    case Exceeded(_) => SpendExceeded
  }

  /** Charges one finished call and judges the new spends. */
  function MeterCall(b: SessionBudget, m: Meter, team: Option<Id>, role: AgentRole, kind: MeterKind, tokensIn: nat,
                     tokensOut: nat)
    : (Meter, SpendVerdict)
  {
    var m1 := Charge(m, team, role, kind, tokensIn, tokensOut);
    var (v, fired) := Evaluate(b, m1.fired, SessionSpentOf(m1), m1.teamSpent, role, AgentSpentOf(m1, role));
    (m1.(fired := fired), ToSpend(v))
  }

  /** The in-memory spends say what the ledger says. */
  ghost predicate CachesAgree(m: Meter) {
    && Dense(m.rows)
    && m.teamSpent == TotalOf(m.rows)
    && m.agentSpent.Keys == RolesOf(m.rows)
    && forall role | role in m.agentSpent :: m.agentSpent[role] == RoleTotal(m.rows, role)
  }

  lemma {:induction false} RolesAppend(rows: seq<MeterRow>, r: MeterRow)
    ensures RolesOf(rows + [r]) == RolesOf(rows) + {r.role}
  {
    assert forall x :: x in rows + [r] <==> x in rows || x == r;
    assert r in rows + [r];
  }

  lemma {:induction false} DenseAppend(rows: seq<MeterRow>, r: MeterRow)
    requires Dense(rows) && r.rowSeq == MaxSeq(rows) + 1
    ensures Dense(rows + [r])
  {
    DenseMax(rows);
  }

  lemma {:induction false} AgentSpentAppend(rows: seq<MeterRow>, agentSpent: map<AgentRole, nat>, r: MeterRow,
                                            x: AgentRole)
    requires agentSpent.Keys == RolesOf(rows)
    requires forall role | role in agentSpent :: agentSpent[role] == RoleTotal(rows, role)
    requires x == r.role || x in agentSpent
    ensures (if x == r.role then (if x in agentSpent then agentSpent[x] else 0) + r.tokensIn + r.tokensOut
             else agentSpent[x])
            == RoleTotal(rows + [r], x)
  {
    RoleTotalAppend(rows, r, x);
    NoRowsNoSum(rows, x);
    RoleTotalIsSum(rows, x);
  }

  /** Charging keeps the caches in step with the ledger's sums and group-by. */
  lemma {:induction false} ChargeKeepsCaches(m: Meter, team: Option<Id>, role: AgentRole, kind: MeterKind,
                                             tokensIn: nat, tokensOut: nat)
    requires CachesAgree(m)
    ensures CachesAgree(Charge(m, team, role, kind, tokensIn, tokensOut))
  {
    var r := MeterRow(MaxSeq(m.rows) + 1, team, role, kind, tokensIn, tokensOut);
    var m' := Charge(m, team, role, kind, tokensIn, tokensOut);
    var rows' := m.rows + [r];
    assert m'.rows == rows';
    assert Dense(rows') by { DenseAppend(m.rows, r); }
    assert m'.agentSpent.Keys == RolesOf(rows') by { RolesAppend(m.rows, r); }
    assert m'.teamSpent == TotalOf(rows') by { TotalAppend(m.rows, r); }
    forall x | x in m'.agentSpent ensures m'.agentSpent[x] == RoleTotal(rows', x) {
      AgentSpentAppend(m.rows, m.agentSpent, r, x);
    }
  }

  lemma {:induction false} FiredIsApart(m: Meter, fired: set<Scope>, b: SessionBudget, role: AgentRole)
    requires CachesAgree(m)
    ensures CachesAgree(m.(fired := fired)) && Snapshot(b, m.(fired := fired), role) == Snapshot(b, m, role)
  {
  }

  /** A metering call is the charge, judged on the new spends. */
  lemma {:induction false} MeterCallJudges(b: SessionBudget, m: Meter, team: Option<Id>, role: AgentRole,
                                           kind: MeterKind, tokensIn: nat, tokensOut: nat)
    requires Paired(b)
    ensures var (m', v) := MeterCall(b, m, team, role, kind, tokensIn, tokensOut);
            var m1 := Charge(m, team, role, kind, tokensIn, tokensOut);
            m' == m1.(fired := m'.fired) && (v.SpendExceeded? <==> SuspendReached(Snapshot(b, m1, role)))
  {
    var m1 := Charge(m, team, role, kind, tokensIn, tokensOut);
    EvaluateAgreesWithSnapshot(b, m1.fired, SessionSpentOf(m1), m1.teamSpent, role, AgentSpentOf(m1, role));
  }

  /**
   * One metering call: caches stay in step, spends never fall, exactly the tokens of the
   * call are added, and Exceeded means precisely that the new snapshot has a line reached.
   */
  lemma {:induction false} MeterCallSpec(b: SessionBudget, m: Meter, team: Option<Id>, role: AgentRole,
                                         kind: MeterKind, tokensIn: nat, tokensOut: nat)
    requires CachesAgree(m) && Paired(b)
    ensures var (m', v) := MeterCall(b, m, team, role, kind, tokensIn, tokensOut);
            && CachesAgree(m')
            && SessionSpentOf(m') == m'.teamSpent == m.teamSpent + tokensIn + tokensOut
            && AgentSpentOf(m', role) == AgentSpentOf(m, role) + tokensIn + tokensOut
            && (v.SpendExceeded? <==> SuspendReached(Snapshot(b, m', role)))
  {
    ChargeKeepsCaches(m, team, role, kind, tokensIn, tokensOut);
    MeterCallJudges(b, m, team, role, kind, tokensIn, tokensOut);
    FiredIsApart(Charge(m, team, role, kind, tokensIn, tokensOut),
                 MeterCall(b, m, team, role, kind, tokensIn, tokensOut).0.fired, b, role);
  }

  datatype Call = Call(role: AgentRole, kind: MeterKind, tokensIn: nat, tokensOut: nat)

  /** One metered call, with the verdict as the threshold engine gives it. */
  function Metered(b: SessionBudget, m: Meter, team: Option<Id>, c: Call): (Meter, ThresholdVerdict) {
    var m1 := Charge(m, team, c.role, c.kind, c.tokensIn, c.tokensOut);
    var (v, fired) := Evaluate(b, m1.fired, SessionSpentOf(m1), m1.teamSpent, c.role, AgentSpentOf(m1, c.role));
    (m1.(fired := fired), v)
  }

  /** The meter and the verdicts after a list of calls, from a given meter on. */
  function MeterAll(b: SessionBudget, team: Option<Id>, start: Meter, calls: seq<Call>): (Meter, seq<ThresholdVerdict>)
  {
    if calls == [] then (start, []) else
      var (m, vs) := MeterAll(b, team, start, calls[..|calls| - 1]);
      var (m', v) := Metered(b, m, team, calls[|calls| - 1]);
      (m', vs + [v])
  }

  /** The verdicts after the last call, from the meter before it. */
  lemma {:induction false} MeterAllLast(b: SessionBudget, team: Option<Id>, start: Meter, calls: seq<Call>)
      returns (m: Meter, vs: seq<ThresholdVerdict>, m': Meter, v: ThresholdVerdict)
    requires calls != []
    ensures (m, vs) == MeterAll(b, team, start, calls[..|calls| - 1])
    ensures (m', v) == Metered(b, m, team, calls[|calls| - 1])
    ensures MeterAll(b, team, start, calls) == (m', vs + [v])
  {
    m, vs := MeterAll(b, team, start, calls[..|calls| - 1]).0, MeterAll(b, team, start, calls[..|calls| - 1]).1;
    m', v := Metered(b, m, team, calls[|calls| - 1]).0, Metered(b, m, team, calls[|calls| - 1]).1;
  }

  /** What one metered call keeps and adds. */
  lemma {:induction false} MeteredSpec(b: SessionBudget, m: Meter, team: Option<Id>, c: Call)
    requires CachesAgree(m) && Paired(b)
    ensures var (m', v) := Metered(b, m, team, c); var tokens := c.tokensIn + c.tokensOut;
            && CachesAgree(m')
            && SessionSpentOf(m') == SessionSpentOf(m) + tokens && m'.teamSpent == m.teamSpent + tokens
            && (forall role :: AgentSpentOf(m', role) == AgentSpentOf(m, role) + if role == c.role then tokens else 0)
            && (v.Exceeded? <==> SuspendReached(Snapshot(b, m', c.role)))
            && m'.fired == (if v.Warn? then m.fired + {v.scope} else m.fired)
            && (v.Warn? ==> v.scope !in m.fired)
  {
    ChargeKeepsCaches(m, team, c.role, c.kind, c.tokensIn, c.tokensOut);
    var m1 := Charge(m, team, c.role, c.kind, c.tokensIn, c.tokensOut);
    TotalAppend(m.rows, MeterRow(MaxSeq(m.rows) + 1, team, c.role, c.kind, c.tokensIn, c.tokensOut));
    EvaluateAgreesWithSnapshot(b, m1.fired, SessionSpentOf(m1), m1.teamSpent, c.role, AgentSpentOf(m1, c.role));
  }

  // ---------------------------------------------------------------- warnings

  /** Some verdict warned for the scope. */
  ghost predicate WarnedFor(vs: seq<ThresholdVerdict>, scope: Scope) {
    exists i :: 0 <= i < |vs| && vs[i].Warn? && vs[i].scope == scope
  }

  /** No two warnings name the same scope, and the fired set holds exactly the scopes that warned. */
  ghost predicate WarnsOnce(vs: seq<ThresholdVerdict>, fired: set<Scope>) {
    && (forall i, j | 0 <= i < j < |vs| && vs[i].Warn? && vs[j].Warn? :: vs[i].scope != vs[j].scope)
    && (forall scope :: scope in fired <==> WarnedFor(vs, scope))
  }

  lemma {:induction false} WarnsOnceNext(vs: seq<ThresholdVerdict>, fired: set<Scope>, v: ThresholdVerdict,
                                         fired': set<Scope>)
    requires WarnsOnce(vs, fired)
    requires if v.Warn? then v.scope !in fired && fired' == fired + {v.scope} else fired' == fired
    ensures WarnsOnce(vs + [v], fired')
  {
    var vs' := vs + [v];
    forall scope ensures scope in fired' <==> WarnedFor(vs', scope) {
      if WarnedFor(vs, scope) {
        var i :| 0 <= i < |vs| && vs[i].Warn? && vs[i].scope == scope;
        assert vs'[i] == vs[i];
      }
      if v.Warn? && v.scope == scope {
        assert vs'[|vs|] == v;
      }
    }
    forall i, j | 0 <= i < j < |vs'| && vs'[i].Warn? && vs'[j].Warn? ensures vs'[i].scope != vs'[j].scope {
      if j == |vs| {
        assert WarnedFor(vs, vs'[i].scope);
      }
    }
  }

  /** Over any sequence of calls each scope warns at most once, and the caches agree. */
  lemma {:induction false} EachScopeWarnsAtMostOnce(b: SessionBudget, team: Option<Id>, calls: seq<Call>)
    requires Paired(b)
    ensures CachesAgree(MeterAll(b, team, FRESH_METER, calls).0)
    ensures WarnsOnce(MeterAll(b, team, FRESH_METER, calls).1, MeterAll(b, team, FRESH_METER, calls).0.fired)
    decreases |calls|
  {
    if calls != [] {
      var c := calls[|calls| - 1];
      EachScopeWarnsAtMostOnce(b, team, calls[..|calls| - 1]);
      var (m, vs) := MeterAll(b, team, FRESH_METER, calls[..|calls| - 1]);
      MeteredSpec(b, m, team, c);
      WarnsOnceNext(vs, m.fired, Metered(b, m, team, c).1, Metered(b, m, team, c).0.fired);
    }
  }

  function WarnLine(b: SessionBudget, role: AgentRole, scope: Scope): Option<u64> {
    match scope
    case SessionScope => b.session.warn
    case TeamScope => b.team.warn
    case AgentScope => AgentLines(b, role).warn
  }

  /** The order in which scopes are looked at. */
  function RankOf(scope: Scope): nat {
    match scope
    case SessionScope => 0
    case TeamScope => 1
    case AgentScope => 2
  }

  /** A warning of this scope is due: its line is reached and it has not warned before. */
  ghost predicate WarnDue(b: SessionBudget, m: Meter, role: AgentRole, vs: seq<ThresholdVerdict>, scope: Scope) {
    LineReached(WarnLine(b, role, scope), ScopeSpent(Snapshot(b, m, role), scope)) && !WarnedFor(vs, scope)
  }

  lemma {:induction false} EvaluateWarnsExactly(b: SessionBudget, fired: set<Scope>, ss: nat, ts: nat, role: AgentRole,
                                                spent: nat, scope: Scope)
    ensures var v := Evaluate(b, fired, ss, ts, role, spent).0; var snap := StateOf(b, ss, ts, role, spent);
            v.Warn? && v.scope == scope <==>
              && !SuspendReached(snap)
              && LineReached(WarnLine(b, role, scope), ScopeSpent(snap, scope)) && scope !in fired
              && forall other: Scope | RankOf(other) < RankOf(scope) ::
                   !(LineReached(WarnLine(b, role, other), ScopeSpent(snap, other)) && other !in fired)
  {
    var snap := StateOf(b, ss, ts, role, spent);
    assert RankOf(SessionScope) < RankOf(TeamScope) < RankOf(AgentScope);
  }

  function SuspendLine(b: SessionBudget, role: AgentRole, scope: Scope): Option<u64> {
    match scope
    case SessionScope => b.session.suspend
    case TeamScope => b.team.suspend
    case AgentScope => AgentLines(b, role).suspend
  }

  /** The scope's own suspend line is reached. */
  predicate OverSuspend(b: SessionBudget, ss: nat, ts: nat, role: AgentRole, spent: nat, scope: Scope) {
    LineReached(SuspendLine(b, role, scope), ScopeSpent(StateOf(b, ss, ts, role, spent), scope))
  }

  /**
   * The verdict is Exceeded for a scope exactly when that scope's own suspend line is the first
   * one reached, in the order session, team, agent; and the snapshot shows each scope its own line.
   */
  lemma {:induction false} ExceededIsFirst(b: SessionBudget, fired: set<Scope>, ss: nat, ts: nat, role: AgentRole,
                                           spent: nat, scope: Scope)
    ensures Evaluate(b, fired, ss, ts, role, spent).0 == Exceeded(scope) <==>
              && OverSuspend(b, ss, ts, role, spent, scope)
              && forall other: Scope | RankOf(other) < RankOf(scope) :: !OverSuspend(b, ss, ts, role, spent, other)
    ensures ScopeSuspendLimit(StateOf(b, ss, ts, role, spent), scope) == SuspendLine(b, role, scope)
  {
    assert RankOf(SessionScope) < RankOf(TeamScope) < RankOf(AgentScope);
  }

  /**
   * Exactly when a call warns for a scope: no suspend line is reached, the scope's warning is
   * due, and no earlier scope's is. An agent warning is due only if no role had one before:
   * all roles share the one flag of their scope.
   */
  lemma {:induction false} WarnsExactly(b: SessionBudget, team: Option<Id>, calls: seq<Call>, c: Call, scope: Scope)
    requires Paired(b)
    ensures var vs := MeterAll(b, team, FRESH_METER, calls).1;
            var (m', vs') := MeterAll(b, team, FRESH_METER, calls + [c]);
            && |vs'| == |calls| + 1
            && (vs'[|calls|].Warn? && vs'[|calls|].scope == scope <==>
                  && !SuspendReached(Snapshot(b, m', c.role))
                  && WarnDue(b, m', c.role, vs, scope)
                  && forall other: Scope | RankOf(other) < RankOf(scope) :: !WarnDue(b, m', c.role, vs, other))
  {
    assert (calls + [c])[..|calls|] == calls;
    EachScopeWarnsAtMostOnce(b, team, calls);
    VerdictCount(b, team, FRESH_METER, calls);
    var (m, vs) := MeterAll(b, team, FRESH_METER, calls);
    var m1 := Charge(m, team, c.role, c.kind, c.tokensIn, c.tokensOut);
    EvaluateWarnsExactly(b, m.fired, SessionSpentOf(m1), m1.teamSpent, c.role, AgentSpentOf(m1, c.role), scope);
  }

  lemma {:induction false} VerdictCount(b: SessionBudget, team: Option<Id>, start: Meter, calls: seq<Call>)
    ensures |MeterAll(b, team, start, calls).1| == |calls|
    decreases |calls|
  {
    if calls != [] {
      VerdictCount(b, team, start, calls[..|calls| - 1]);
    }
  }

  /** After the call a warning of the scope is due: its line is reached and it has not fired before. */
  ghost predicate DueAfter(b: SessionBudget, fired: set<Scope>, m': Meter, role: AgentRole, scope: Scope) {
    LineReached(WarnLine(b, role, scope), ScopeSpent(Snapshot(b, m', role), scope)) && scope !in fired
  }

  ghost predicate FirstDueAfter(b: SessionBudget, fired: set<Scope>, m': Meter, role: AgentRole, scope: Scope) {
    && DueAfter(b, fired, m', role, scope)
    && forall other: Scope | RankOf(other) < RankOf(scope) :: !DueAfter(b, fired, m', role, other)
  }

  /** A warning of the scope: its spend in the new snapshot, and what is left up to its suspend line. */
  ghost predicate WarnsOf(v: SpendVerdict, b: SessionBudget, m': Meter, role: AgentRole, scope: Scope) {
    && v.SpendWarn? && v.remaining.Some? && v.remaining.value > 0
    && v.spent == ScopeSpent(Snapshot(b, m', role), scope)
    && ScopeSuspendLimit(Snapshot(b, m', role), scope) == Some(v.spent + v.remaining.value)
  }

  /**
   * A metering call is answered Exceeded exactly when a suspend line is reached; otherwise
   * with a warning exactly when one is due, then of the first scope in order, with that
   * scope's numbers.
   */
  lemma {:induction false} MeterCallWarns(b: SessionBudget, m: Meter, team: Option<Id>, role: AgentRole,
                                          kind: MeterKind, tokensIn: nat, tokensOut: nat, scope: Scope)
    requires Paired(b)
    ensures var (m', v) := MeterCall(b, m, team, role, kind, tokensIn, tokensOut);
            && (v.SpendExceeded? <==> SuspendReached(Snapshot(b, m', role)))
            && (v.SpendWarn? ==> exists s: Scope :: DueAfter(b, m.fired, m', role, s))
            && (!SuspendReached(Snapshot(b, m', role)) && FirstDueAfter(b, m.fired, m', role, scope) ==>
                  WarnsOf(v, b, m', role, scope) && m'.fired == m.fired + {scope})
            && (!v.SpendWarn? ==> m'.fired == m.fired)
  {
    var m1 := Charge(m, team, role, kind, tokensIn, tokensOut);
    EvaluateAgreesWithSnapshot(b, m1.fired, SessionSpentOf(m1), m1.teamSpent, role, AgentSpentOf(m1, role));
    var (v, fired) := Evaluate(b, m1.fired, SessionSpentOf(m1), m1.teamSpent, role, AgentSpentOf(m1, role));
    var m' := MeterCall(b, m, team, role, kind, tokensIn, tokensOut).0;
    assert m' == m1.(fired := fired);
    EvaluateWarnsExactly(b, m1.fired, SessionSpentOf(m1), m1.teamSpent, role, AgentSpentOf(m1, role), scope);
    if v.Warn? {
      EvaluateWarnsExactly(b, m1.fired, SessionSpentOf(m1), m1.teamSpent, role, AgentSpentOf(m1, role), v.scope);
      assert DueAfter(b, m.fired, m', role, v.scope);
    }
  }

  /** The scope that a warning is of. */
  lemma {:induction false} WarnedScope(b: SessionBudget, m: Meter, team: Option<Id>, role: AgentRole,
                                       kind: MeterKind, tokensIn: nat, tokensOut: nat)
    returns (scope: Scope)
    requires Paired(b) && MeterCall(b, m, team, role, kind, tokensIn, tokensOut).1.SpendWarn?
    ensures var (m', v) := MeterCall(b, m, team, role, kind, tokensIn, tokensOut);
            WarnsOf(v, b, m', role, scope) && LineReached(WarnLine(b, role, scope), v.spent)
  {
    var m1 := Charge(m, team, role, kind, tokensIn, tokensOut);
    EvaluateAgreesWithSnapshot(b, m1.fired, SessionSpentOf(m1), m1.teamSpent, role, AgentSpentOf(m1, role));
    var v := Evaluate(b, m1.fired, SessionSpentOf(m1), m1.teamSpent, role, AgentSpentOf(m1, role)).0;
    scope := v.scope;
    EvaluateWarnsExactly(b, m1.fired, SessionSpentOf(m1), m1.teamSpent, role, AgentSpentOf(m1, role), scope);
  }

  /** Every fired scope's warn line has been reached, by some role. */
  ghost predicate FiredReached(b: SessionBudget, m: Meter) {
    forall scope: Scope | scope in m.fired :: ReachedBySome(b, m, scope)
  }

  ghost predicate ReachedBySome(b: SessionBudget, m: Meter, scope: Scope) {
    exists role: AgentRole :: LineReached(WarnLine(b, role, scope), ScopeSpent(Snapshot(b, m, role), scope))
  }

  /** Spends only grow. */
  lemma {:induction false} SpentGrows(b: SessionBudget, m: Meter, team: Option<Id>, role: AgentRole, kind: MeterKind,
                                      tokensIn: nat, tokensOut: nat, r: AgentRole, scope: Scope)
    ensures var m' := MeterCall(b, m, team, role, kind, tokensIn, tokensOut).0;
            ScopeSpent(Snapshot(b, m', r), scope) >= ScopeSpent(Snapshot(b, m, r), scope)
  {
    TotalAppend(m.rows, MeterRow(MaxSeq(m.rows) + 1, team, role, kind, tokensIn, tokensOut));
  }

  lemma {:induction false} StaysReached(b: SessionBudget, m: Meter, team: Option<Id>, role: AgentRole, kind: MeterKind,
                                        tokensIn: nat, tokensOut: nat, scope: Scope)
    requires ReachedBySome(b, m, scope)
    ensures ReachedBySome(b, MeterCall(b, m, team, role, kind, tokensIn, tokensOut).0, scope)
  {
    var r: AgentRole :| LineReached(WarnLine(b, r, scope), ScopeSpent(Snapshot(b, m, r), scope));
    SpentGrows(b, m, team, role, kind, tokensIn, tokensOut, r, scope);
    StillReached(b, m, MeterCall(b, m, team, role, kind, tokensIn, tokensOut).0, r, scope);
  }

  lemma {:induction false} StillReached(b: SessionBudget, m: Meter, m': Meter, r: AgentRole, scope: Scope)
    requires LineReached(WarnLine(b, r, scope), ScopeSpent(Snapshot(b, m, r), scope))
    requires ScopeSpent(Snapshot(b, m', r), scope) >= ScopeSpent(Snapshot(b, m, r), scope)
    ensures ReachedBySome(b, m', scope)
  {
    assert LineReached(WarnLine(b, r, scope), ScopeSpent(Snapshot(b, m', r), scope));
  }

  lemma {:induction false} FiredStaysReached(b: SessionBudget, m: Meter, team: Option<Id>, role: AgentRole,
                                             kind: MeterKind, tokensIn: nat, tokensOut: nat)
    requires Paired(b) && FiredReached(b, m)
    ensures FiredReached(b, MeterCall(b, m, team, role, kind, tokensIn, tokensOut).0)
  {
    var (m', v) := MeterCall(b, m, team, role, kind, tokensIn, tokensOut);
    forall scope: Scope | scope in m'.fired ensures ReachedBySome(b, m', scope) {
      if scope in m.fired {
        StaysReached(b, m, team, role, kind, tokensIn, tokensOut, scope);
      } else {
        FiredWasDue(b, m, team, role, kind, tokensIn, tokensOut, scope);
      }
    }
  }

  lemma {:induction false} FiredWasDue(b: SessionBudget, m: Meter, team: Option<Id>, role: AgentRole, kind: MeterKind,
                                       tokensIn: nat, tokensOut: nat, scope: Scope)
    requires Paired(b) && scope !in m.fired && scope in MeterCall(b, m, team, role, kind, tokensIn, tokensOut).0.fired
    ensures var m' := MeterCall(b, m, team, role, kind, tokensIn, tokensOut).0;
            LineReached(WarnLine(b, role, scope), ScopeSpent(Snapshot(b, m', role), scope))
  {
    var m1 := Charge(m, team, role, kind, tokensIn, tokensOut);
    EvaluateAgreesWithSnapshot(b, m1.fired, SessionSpentOf(m1), m1.teamSpent, role, AgentSpentOf(m1, role));
    EvaluateWarnsExactly(b, m1.fired, SessionSpentOf(m1), m1.teamSpent, role, AgentSpentOf(m1, role), scope);
  }

  /** Two roles, each capped at 100 tokens with its warn line at 80; no other cap. */
  const TWO_CAPS := Freeze(BudgetEnvelope(None, None, map[Id("a") := 100, Id("b") := 100], 80, 100))
  const CALL_A := Call(Id("a"), Llm, 80, 0)
  const CALL_B := Call(Id("b"), Llm, 80, 0)

  lemma {:induction false} TwoCapsLines()
    ensures TWO_CAPS.session == TWO_CAPS.team == Lines(None, None)
    ensures AgentLines(TWO_CAPS, CALL_A.role) == AgentLines(TWO_CAPS, CALL_B.role) == Lines(Some(80), Some(100))
    ensures CALL_A.role != CALL_B.role
  {
    assert CALL_A.role.name != CALL_B.role.name;
  }

  /** Without session and team caps, two roles with these lines share one warning. */
  lemma {:induction false} AgentJudged(b: SessionBudget, ss: nat, ts: nat, role: AgentRole)
    requires b.session == b.team == Lines(None, None) && AgentLines(b, role) == Lines(Some(80), Some(100))
    ensures Evaluate(b, {}, ss, ts, role, 80) == (Warn(AgentScope, 80, Some(20)), {AgentScope})
    ensures Evaluate(b, {AgentScope}, ss, ts, role, 80).0 == Clear
  {
    var none: set<Scope> := {};
    assert none + {AgentScope} == {AgentScope};
  }

  /** The verdict of a metered call is the engine's on the charged spends. */
  lemma {:induction false} MeteredVerdict(b: SessionBudget, m: Meter, team: Option<Id>, c: Call)
    returns (ss: nat, ts: nat)
    ensures Metered(b, m, team, c).1
            == Evaluate(b, m.fired, ss, ts, c.role, AgentSpentOf(m, c.role) + c.tokensIn + c.tokensOut).0
  {
    var m1 := Charge(m, team, c.role, c.kind, c.tokensIn, c.tokensOut);
    ss, ts := SessionSpentOf(m1), m1.teamSpent;
  }

  lemma {:induction false} FirstRoleWarned(team: Option<Id>)
    ensures var (m, v) := Metered(TWO_CAPS, FRESH_METER, team, CALL_A);
            v == Warn(AgentScope, 80, Some(20)) && m.fired == {AgentScope} && AgentSpentOf(m, CALL_B.role) == 0
  {
    TwoCapsLines();
    var m1 := Charge(FRESH_METER, team, CALL_A.role, Llm, 80, 0);
    AgentJudged(TWO_CAPS, SessionSpentOf(m1), m1.teamSpent, CALL_A.role);
  }

  lemma {:induction false} NextRoleClear(team: Option<Id>, m: Meter)
    requires m.fired == {AgentScope} && AgentSpentOf(m, CALL_B.role) == 0
    ensures Metered(TWO_CAPS, m, team, CALL_B).1 == Clear
  {
    TwoCapsLines();
    var ss, ts := MeteredVerdict(TWO_CAPS, m, team, CALL_B);
    AgentJudged(TWO_CAPS, ss, ts, CALL_B.role);
  }

  lemma {:induction false} OneVerdict(b: SessionBudget, team: Option<Id>, start: Meter, c: Call, m: Meter,
                                      v: ThresholdVerdict)
    requires (m, v) == Metered(b, start, team, c)
    ensures MeterAll(b, team, start, [c]) == (m, [v])
  {
    var calls := [c];
    assert calls[..|calls| - 1] == [];
    assert MeterAll(b, team, start, calls[..|calls| - 1]) == (start, []);
    var m0, vs, m1, v1 := MeterAllLast(b, team, start, calls);
    assert vs + [v1] == [v];
  }

  lemma {:induction false} TwoVerdicts(b: SessionBudget, team: Option<Id>, start: Meter, c: Call, d: Call,
                                       m: Meter, v: ThresholdVerdict, w: ThresholdVerdict)
    requires (m, v) == Metered(b, start, team, c) && Metered(b, m, team, d).1 == w
    ensures MeterAll(b, team, start, [c, d]).1 == [v, w]
  {
    OneVerdict(b, team, start, c, m, v);
    var calls := [c, d];
    assert calls[..|calls| - 1] == [c];
    var m1, vs, m2, v2 := MeterAllLast(b, team, start, calls);
  }

  lemma {:induction false} TwoRolesJudged(team: Option<Id>) returns (m: Meter)
    ensures (m, Warn(AgentScope, 80, Some(20))) == Metered(TWO_CAPS, FRESH_METER, team, CALL_A)
    ensures Metered(TWO_CAPS, m, team, CALL_B).1 == Clear
  {
    FirstRoleWarned(team);
    m := Metered(TWO_CAPS, FRESH_METER, team, CALL_A).0;
    NextRoleClear(team, m);
  }

  /** Only the first of two roles to reach its own line is warned about. */
  lemma {:induction false} SecondRoleIsSilent(team: Option<Id>)
    ensures MeterAll(TWO_CAPS, team, FRESH_METER, [CALL_A, CALL_B]).1 == [Warn(AgentScope, 80, Some(20)), Clear]
  {
    var m := TwoRolesJudged(team);
    TwoVerdicts(TWO_CAPS, team, FRESH_METER, CALL_A, CALL_B, m, Warn(AgentScope, 80, Some(20)), Clear);
  }

  // ---------------------------------------------------------------- lines stay reached

  /** The role has a suspend line reached, and its spends are the ledger's. */
  ghost predicate OverLine(b: SessionBudget, role: AgentRole, m: Meter) {
    CachesAgree(m) && SuspendReached(Snapshot(b, m, role))
  }

  lemma {:induction false} LineStaysReached(b: SessionBudget, m: Meter, team: Option<Id>, c: Call, role: AgentRole)
    requires Paired(b) && OverLine(b, role, m)
    ensures var (m', v) := Metered(b, m, team, c); OverLine(b, role, m') && (c.role == role ==> v.Exceeded?)
  {
    MeteredSpec(b, m, team, c);
  }

  /** Every call of the role was answered Exceeded. */
  ghost predicate Refused(calls: seq<Call>, vs: seq<ThresholdVerdict>, role: AgentRole) {
    |vs| == |calls| && forall i | 0 <= i < |calls| && calls[i].role == role :: vs[i].Exceeded?
  }

  lemma {:induction false} RefusedNext(calls: seq<Call>, vs: seq<ThresholdVerdict>, v: ThresholdVerdict,
                                       role: AgentRole)
    requires calls != [] && Refused(calls[..|calls| - 1], vs, role)
    requires calls[|calls| - 1].role == role ==> v.Exceeded?
    ensures Refused(calls, vs + [v], role)
  {
    forall i | 0 <= i < |calls| && calls[i].role == role ensures (vs + [v])[i].Exceeded? {
      if i < |vs| {
        assert calls[..|calls| - 1][i] == calls[i];
      }
    }
  }

  /**
   * A reached line is never taken back: whatever is metered afterwards, by this role or any
   * other, the role's snapshot keeps the line reached and every later call of the role is
   * answered Exceeded.
   */
  lemma {:induction false} ExceededPersists(b: SessionBudget, team: Option<Id>, start: Meter, role: AgentRole,
                                            calls: seq<Call>)
    requires Paired(b) && OverLine(b, role, start)
    ensures var (m, vs) := MeterAll(b, team, start, calls); OverLine(b, role, m) && Refused(calls, vs, role)
    decreases |calls|
  {
    if calls != [] {
      ExceededPersists(b, team, start, role, calls[..|calls| - 1]);
      var m, vs, m', v := MeterAllLast(b, team, start, calls);
      LineStaysReached(b, m, team, calls[|calls| - 1], role);
      RefusedNext(calls, vs, v, role);
    }
  }

  class BudgetEngine {
    const budget: SessionBudget
    var fired: set<Scope>

    constructor (budget: SessionBudget)
      ensures this.budget == budget && fired == {}
    {
      this.budget := budget;
      fired := {};
    }

    method EvaluateSpend(sessionSpent: nat, teamSpent: nat, role: AgentRole, agentSpent: nat)
      returns (v: ThresholdVerdict)
      modifies this
      ensures (v, fired) == Evaluate(budget, old(fired), sessionSpent, teamSpent, role, agentSpent)
    {
      if LineReached(budget.session.suspend, sessionSpent) {
        return Exceeded(SessionScope);
      }
      if LineReached(budget.team.suspend, teamSpent) {
        return Exceeded(TeamScope);
      }
      var agent := AgentLines(budget, role);
      if LineReached(agent.suspend, agentSpent) {
        return Exceeded(AgentScope);
      }
      if Crosses(budget.session.warn, sessionSpent, fired, SessionScope) {
        fired := fired + {SessionScope};
        return Warn(SessionScope, sessionSpent, Remaining(budget.session.suspend, sessionSpent));
      }
      if Crosses(budget.team.warn, teamSpent, fired, TeamScope) {
        fired := fired + {TeamScope};
        return Warn(TeamScope, teamSpent, Remaining(budget.team.suspend, teamSpent));
      }
      if Crosses(agent.warn, agentSpent, fired, AgentScope) {
        fired := fired + {AgentScope};
        return Warn(AgentScope, agentSpent, Remaining(agent.suspend, agentSpent));
      }
      return Clear;
    }
  }

  class BudgetMeter {
    const budget: SessionBudget
    const team: Option<Id>
    const ledger: Ledger
    const engine: BudgetEngine
    var agentSpent: map<AgentRole, nat>
    var teamSpent: nat

    constructor (budget: SessionBudget, team: Option<Id>)
      ensures this.budget == budget && this.team == team && Valid()
      ensures fresh(ledger) && fresh(engine) && Abs() == FRESH_METER
    {
      this.budget, this.team := budget, team;
      ledger := new Ledger();
      engine := new BudgetEngine(budget);
      agentSpent := map[];
      teamSpent := 0;
    }

    ghost predicate Valid() {
      engine.budget == budget
    }

    function Abs(): Meter
      reads this, ledger, engine
    {
      Meter(ledger.rows, agentSpent, teamSpent, engine.fired)
    }

    method TakeSnapshot(role: AgentRole) returns (s: BudgetState)
      ensures s == Snapshot(budget, Abs(), role)
    {
      var t := ledger.SessionTotals();
      s := StateOf(budget, t.tokensIn + t.tokensOut, teamSpent, role,
                   if role in agentSpent then agentSpent[role] else 0);
    }

    /** Records the ledger row and adds the tokens to both in-memory spends. */
    method ChargeOne(role: AgentRole, kind: MeterKind, tokensIn: nat, tokensOut: nat)
      modifies this, ledger
      ensures Abs() == Charge(old(Abs()), team, role, kind, tokensIn, tokensOut)
    {
      var _ := ledger.Record(team, role, kind, tokensIn, tokensOut);
      agentSpent := agentSpent[role := (if role in agentSpent then agentSpent[role] else 0) + tokensIn + tokensOut];
      teamSpent := teamSpent + tokensIn + tokensOut;
    }

    /** Judges the spends as they stand. */
    method Judge(role: AgentRole) returns (v: ThresholdVerdict)
      requires Valid()
      modifies engine
      ensures (v, engine.fired)
              == Evaluate(budget, old(engine.fired), SessionSpentOf(old(Abs())), teamSpent, role,
                          AgentSpentOf(old(Abs()), role))
    {
      var t := ledger.SessionTotals();
      v := engine.EvaluateSpend(t.tokensIn + t.tokensOut, teamSpent, role,
                                if role in agentSpent then agentSpent[role] else 0);
    }

    method MeterOne(role: AgentRole, kind: MeterKind, tokensIn: nat, tokensOut: nat) returns (v: SpendVerdict)
      requires Valid()
      modifies this, ledger, engine
      ensures (Abs(), v) == MeterCall(budget, old(Abs()), team, role, kind, tokensIn, tokensOut)
    {
      ChargeOne(role, kind, tokensIn, tokensOut);
      var verdict := Judge(role);
      v := ToSpend(verdict);
    }
  }
}
