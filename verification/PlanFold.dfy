/**
 * From a parsed plan text to a plan (fold, fold_stage and check_refs in
 * crates/hesmos-orchestrator/src/compile.rs), with its fixed order of detected errors.
 */
module PlanFold {
  import opened Core
  import opened Orders
  import opened Domain
  import opened FlowDsl
  import opened Patterns

  datatype CompileError =
    | DuplicateNodeId(node: NodeId)
    | ProfileMissing(node: NodeId)
    | MissingGoalOriginal
    | InvalidDsl(expression: string)
    | UnknownNodeRef(referrer: Id, refs: seq<Id>)
    | InvalidBudgetSpec
    | PatternNormalizationFailed
    | CycleDetected(path: seq<NodeId>)

  datatype RawGates = RawGates(pre: Option<seq<Id>>, post: Option<seq<Id>>)

  datatype RawProfile = RawProfile(
    role: Option<string>, model: Id, tools: Option<set<Id>>, gates: Option<seq<Id>>,
    network: Option<Option<set<string>>>, spawnTokenFloor: Option<u64>)

  datatype RawStage = RawStage(
    id: NodeId, profile: RawProfile, inputSchema: Id, doneCriteria: seq<string>,
    depends: Option<seq<NodeId>>, gates: Option<RawGates>, isTerminal: Option<bool>, isRouter: Option<bool>)

  /** The budget block: absent, well formed or not. */
  datatype RawBudget = NoBudget | BudgetBlock(wellFormed: bool)

  datatype RawPlan = RawPlan(
    task: Option<string>, pattern: Option<PatternKind>, stages: seq<RawStage>,
    edges: Option<seq<PlanEdge>>, flow: Option<string>, budget: RawBudget)

  function OrElse<T>(o: Option<T>, default: T): T {
    if o.Some? then o.value else default
  }

  // ---------------------------------------------------------------- stages

  /** Gates named beside the profile keys or under the stage: both count. */
  function FoldStage(raw: RawStage): StageSpec
    requires raw.profile.role.Some?
  {
    var gates := OrElse(raw.gates, RawGates(None, None));
    StageSpec(
      raw.id,
      AgentProfile(Id(raw.profile.role.value), raw.profile.model, OrElse(raw.profile.tools, {}),
                   OrElse(OrElse(raw.profile.network, None), {}), OrElse(raw.profile.spawnTokenFloor, 0)),
      raw.inputSchema,
      raw.doneCriteria,
      SetOf(OrElse(gates.pre, [])),
      SetOf(OrElse(raw.profile.gates, [])) + SetOf(OrElse(gates.post, [])),
      OrElse(raw.isTerminal, false),
      OrElse(raw.isRouter, false))
  }

  function FoldStages(raws: seq<RawStage>): (stages: seq<StageSpec>)
    requires forall i | 0 <= i < |raws| :: raws[i].profile.role.Some?
    ensures |stages| == |raws|
  {
    seq(|raws|, i requires 0 <= i < |raws| => FoldStage(raws[i]))
  }

  function RawIds(raws: seq<RawStage>): set<NodeId> {
    set r | r in raws :: r.id
  }

  predicate RoleMissing(raw: RawStage) {
    Trim(OrElse(raw.profile.role, "")) == ""
  }

  function RawIdSeq(raws: seq<RawStage>): (ns: seq<NodeId>)
    ensures |ns| == |raws|
  {
    seq(|raws|, i requires 0 <= i < |raws| => raws[i].id)
  }

  function FirstRoleMissing(raws: seq<RawStage>): Option<NodeId> {
    if raws == [] then None
    else if RoleMissing(raws[0]) then Some(raws[0].id)
    else FirstRoleMissing(raws[1..])
  }

  lemma {:induction false} NoRoleMissing(raws: seq<RawStage>)
    ensures FirstRoleMissing(raws) == None <==> forall i | 0 <= i < |raws| :: !RoleMissing(raws[i])
    decreases |raws|
  {
    if raws != [] {
      NoRoleMissing(raws[1..]);
      assert forall i | 0 < i < |raws| :: raws[i] == raws[1..][i - 1];
    }
  }

  // ---------------------------------------------------------------- references

  const FLOW_REFERRER := Id("<flow>")
  const EDGES_REFERRER := Id("<edges>")

  /** Somebody names a node. */
  type Reference = (Id, NodeId)

  function NamedBy(referrer: Id, names: seq<NodeId>): seq<Reference> {
    if names == [] then [] else NamedBy(referrer, names[..|names| - 1]) + [(referrer, names[|names| - 1])]
  }

  function DependReferences(raws: seq<RawStage>): seq<Reference> {
    if raws == [] then [] else
      DependReferences(raws[..|raws| - 1]) + NamedBy(raws[|raws| - 1].id, OrElse(raws[|raws| - 1].depends, []))
  }

  function EdgeReferences(referrer: Id, edges: seq<PlanEdge>): seq<Reference> {
    if edges == [] then [] else
      EdgeReferences(referrer, edges[..|edges| - 1])
        + [(referrer, edges[|edges| - 1].from), (referrer, edges[|edges| - 1].to)]
  }

  /** All references of a plan: dependencies, flow, then explicit edges. */
  function References(raw: RawPlan, flow: seq<PlanEdge>): seq<Reference> {
    DependReferences(raw.stages) + EdgeReferences(FLOW_REFERRER, flow)
      + EdgeReferences(EDGES_REFERRER, OrElse(raw.edges, []))
  }

  /** The unknown names of one referrer. */
  function MissingOf(refs: seq<Reference>, known: set<NodeId>, referrer: Id): set<NodeId> {
    set r | r in refs && r.0 == referrer && r.1 !in known :: r.1
  }

  function Offenders(refs: seq<Reference>, known: set<NodeId>): set<Id> {
    set r | r in refs && r.1 !in known :: r.0
  }

  /** The first offender in name order, with its unknown names in order. */
  function RefFault(refs: seq<Reference>, known: set<NodeId>): Option<CompileError> {
    var bad := Offenders(refs, known);
    if bad == {} then None else Some(UnknownNodeRef(First(bad), Sorted(MissingOf(refs, known, First(bad)))))
  }

  lemma {:induction false} AllKnown(refs: seq<Reference>, known: set<NodeId>)
    ensures RefFault(refs, known) == None <==> forall r | r in refs :: r.1 in known
  {
    if r :| r in refs && r.1 !in known {
      assert r.0 in Offenders(refs, known);
    }
  }

  ghost predicate MissingMap(m: map<Id, set<NodeId>>, refs: seq<Reference>, known: set<NodeId>) {
    m.Keys == Offenders(refs, known) && forall r | r in m :: m[r] == MissingOf(refs, known, r)
  }

  method Note(m: map<Id, set<NodeId>>, ref: Reference, known: set<NodeId>, ghost refs: seq<Reference>)
    returns (m': map<Id, set<NodeId>>)
    requires MissingMap(m, refs, known)
    ensures MissingMap(m', refs + [ref], known)
  {
    m' := m;
    assert forall r :: r in refs + [ref] <==> r in refs || r == ref;
    if ref.1 !in known {
      m' := m[ref.0 := (if ref.0 in m then m[ref.0] else {}) + {ref.1}];
      assert Offenders(refs + [ref], known) == Offenders(refs, known) + {ref.0};
      forall r | r in m' ensures m'[r] == MissingOf(refs + [ref], known, r) {
        assert MissingOf(refs + [ref], known, r) == MissingOf(refs, known, r) + if r == ref.0 then {ref.1} else {};
      }
    } else {
      assert Offenders(refs + [ref], known) == Offenders(refs, known);
      assert forall r :: MissingOf(refs + [ref], known, r) == MissingOf(refs, known, r);
    }
  }

  method NoteNames(m: map<Id, set<NodeId>>, referrer: Id, names: seq<NodeId>, known: set<NodeId>,
                   ghost refs: seq<Reference>)
    returns (m': map<Id, set<NodeId>>)
    requires MissingMap(m, refs, known)
    ensures MissingMap(m', refs + NamedBy(referrer, names), known)
  {
    m' := m;
    var i := 0;
    assert refs + [] == refs;
    while i < |names|
      invariant 0 <= i <= |names|
      invariant MissingMap(m', refs + NamedBy(referrer, names[..i]), known)
    {
      m' := Note(m', (referrer, names[i]), known, refs + NamedBy(referrer, names[..i]));
      assert names[..i + 1][..i] == names[..i];
      assert refs + NamedBy(referrer, names[..i + 1]) == refs + NamedBy(referrer, names[..i]) + [(referrer, names[i])];
      i := i + 1;
    }
    assert names[..i] == names;
  }

  method NoteEdges(m: map<Id, set<NodeId>>, referrer: Id, edges: seq<PlanEdge>, known: set<NodeId>,
                   ghost refs: seq<Reference>)
    returns (m': map<Id, set<NodeId>>)
    requires MissingMap(m, refs, known)
    ensures MissingMap(m', refs + EdgeReferences(referrer, edges), known)
  {
    m' := m;
    var i := 0;
    assert refs + [] == refs;
    while i < |edges|
      invariant 0 <= i <= |edges|
      invariant MissingMap(m', refs + EdgeReferences(referrer, edges[..i]), known)
    {
      ghost var before := refs + EdgeReferences(referrer, edges[..i]);
      m' := Note(m', (referrer, edges[i].from), known, before);
      m' := Note(m', (referrer, edges[i].to), known, before + [(referrer, edges[i].from)]);
      assert edges[..i + 1][..i] == edges[..i];
      assert refs + EdgeReferences(referrer, edges[..i + 1])
             == before + [(referrer, edges[i].from)] + [(referrer, edges[i].to)];
      i := i + 1;
    }
    assert edges[..i] == edges;
  }

  /** Every referenced name must be a stage. */
  method CheckRefs(raw: RawPlan, flow: seq<PlanEdge>) returns (fault: Option<CompileError>)
    ensures fault == RefFault(References(raw, flow), RawIds(raw.stages))
  {
    var known := RawIds(raw.stages);
    var m: map<Id, set<NodeId>> := map[];
    var i := 0;
    while i < |raw.stages|
      invariant 0 <= i <= |raw.stages|
      invariant MissingMap(m, DependReferences(raw.stages[..i]), known)
    {
      m := NoteNames(m, raw.stages[i].id, OrElse(raw.stages[i].depends, []), known, DependReferences(raw.stages[..i]));
      assert raw.stages[..i + 1][..i] == raw.stages[..i];
      i := i + 1;
    }
    assert raw.stages[..i] == raw.stages;
    m := NoteEdges(m, FLOW_REFERRER, flow, known, DependReferences(raw.stages));
    m := NoteEdges(m, EDGES_REFERRER, OrElse(raw.edges, []), known,
                   DependReferences(raw.stages) + EdgeReferences(FLOW_REFERRER, flow));
    if m.Keys == {} {
      return None;
    }
    var referrer := First(m.Keys);
    return Some(UnknownNodeRef(referrer, Sorted(m[referrer])));
  }

  // ---------------------------------------------------------------- the edge union

  function FlowEdges(es: seq<FlowEdge>): (edges: seq<PlanEdge>)
    ensures |edges| == |es|
  {
    seq(|es|, i requires 0 <= i < |es| => PlanEdge(Id(es[i].0), Id(es[i].1)))
  }

  function DependEdges(raw: RawStage): set<PlanEdge> {
    set d | d in OrElse(raw.depends, []) :: PlanEdge(d, raw.id)
  }

  function AllDependEdges(raws: seq<RawStage>): set<PlanEdge> {
    if raws == [] then {} else AllDependEdges(raws[..|raws| - 1]) + DependEdges(raws[|raws| - 1])
  }

  /** Explicit edges, dependencies and flow together; duplicates collapse. */
  function EdgeSet(raw: RawPlan, flow: seq<PlanEdge>): set<PlanEdge> {
    SetOf(OrElse(raw.edges, [])) + AllDependEdges(raw.stages) + SetOf(flow)
  }

  function Targets(es: set<PlanEdge>, from: NodeId): set<NodeId> {
    set e | e in es && e.from == from :: e.to
  }

  function EdgesFrom(from: NodeId, targets: seq<NodeId>): (edges: seq<PlanEdge>)
    ensures |edges| == |targets|
  {
    seq(|targets|, i requires 0 <= i < |targets| => PlanEdge(from, targets[i]))
  }

  function EdgesFromAll(es: set<PlanEdge>, froms: seq<NodeId>): seq<PlanEdge> {
    if froms == [] then [] else EdgesFrom(froms[0], Sorted(Targets(es, froms[0]))) + EdgesFromAll(es, froms[1..])
  }

  /** The edges in order of source, then target. */
  function SortedEdges(es: set<PlanEdge>): seq<PlanEdge> {
    EdgesFromAll(es, Sorted(set e | e in es :: e.from))
  }

  lemma {:induction false} EdgesFromElements(es: set<PlanEdge>, from: NodeId, e: PlanEdge)
    ensures e in EdgesFrom(from, Sorted(Targets(es, from))) <==> e in es && e.from == from
  {
    var ts := Sorted(Targets(es, from));
    SortedSpec(Targets(es, from));
    var edges := EdgesFrom(from, ts);
    if e in edges {
      var i :| 0 <= i < |edges| && edges[i] == e;
      assert ts[i] in ts;
      var f :| f in es && f.from == from && f.to == ts[i];
      assert f == e;
    }
    if e in es && e.from == from {
      assert e.to in Targets(es, from);
      var i :| 0 <= i < |ts| && ts[i] == e.to;
      assert edges[i] == e;
    }
  }

  lemma {:induction false} EdgesFromAllElements(es: set<PlanEdge>, froms: seq<NodeId>, e: PlanEdge)
    ensures e in EdgesFromAll(es, froms) <==> e in es && e.from in froms
    decreases |froms|
  {
    if froms != [] {
      EdgesFromElements(es, froms[0], e);
      EdgesFromAllElements(es, froms[1..], e);
    }
  }

  /** Sorting keeps exactly the edges of the set. */
  lemma {:induction false} SortedEdgesElements(es: set<PlanEdge>, e: PlanEdge)
    ensures e in SortedEdges(es) <==> e in es
  {
    var froms := set f | f in es :: f.from;
    SortedSpec(froms);
    EdgesFromAllElements(es, Sorted(froms), e);
    if e in es {
      assert e.from in froms;
    }
  }

  predicate EdgeLess(a: PlanEdge, b: PlanEdge) {
    Less(a.from, b.from) || (a.from == b.from && Less(a.to, b.to))
  }

  ghost predicate EdgesAscend(edges: seq<PlanEdge>) {
    forall i, j | 0 <= i < j < |edges| :: EdgeLess(edges[i], edges[j])
  }

  lemma {:induction false} EdgesFromAllAscend(es: set<PlanEdge>, froms: seq<NodeId>)
    requires Ascending(froms)
    ensures EdgesAscend(EdgesFromAll(es, froms))
    decreases |froms|
  {
    if froms != [] {
      var ts := Sorted(Targets(es, froms[0]));
      SortedSpec(Targets(es, froms[0]));
      var a, b := EdgesFrom(froms[0], ts), EdgesFromAll(es, froms[1..]);
      assert Ascending(froms[1..]);
      EdgesFromAllAscend(es, froms[1..]);
      forall i, j | 0 <= i < j < |a + b| ensures EdgeLess((a + b)[i], (a + b)[j]) {
        if j >= |a| && i < |a| {
          var e := b[j - |a|];
          EdgesFromAllElements(es, froms[1..], e);
          var k :| 0 <= k < |froms[1..]| && froms[1..][k] == e.from;
          assert Less(froms[0], froms[k + 1]);
        }
      }
    }
  }

  lemma {:induction false} SortedEdgesAscend(es: set<PlanEdge>)
    ensures EdgesAscend(SortedEdges(es))
  {
    SortedSpec(set e | e in es :: e.from);
    EdgesFromAllAscend(es, Sorted(set e | e in es :: e.from));
  }

  // ---------------------------------------------------------------- the fold

  function ParsedFlow(raw: RawPlan): Result<seq<PlanEdge>, string> {
    if raw.flow.None? then Ok([]) else
      match ParseFlow(raw.flow.value)
      case Err(stmt) => Err(stmt)
      case Ok(es) => Ok(FlowEdges(es))
  }

  /** Errors in detection order; otherwise the folded plan. */
  function Fold(raw: RawPlan): Result<Plan, CompileError> {
    var duplicate := FirstRepeat(RawIdSeq(raw.stages));
    var missing := FirstRoleMissing(raw.stages);
    if duplicate.Some? then Err(DuplicateNodeId(duplicate.value))
    else if missing.Some? then Err(ProfileMissing(missing.value))
    else if raw.task.None? || Trim(raw.task.value) == "" then Err(MissingGoalOriginal)
    else
      match ParsedFlow(raw)
      case Err(stmt) => Err(InvalidDsl(stmt))
      case Ok(flow) =>
        var fault := RefFault(References(raw, flow), RawIds(raw.stages));
        if fault.Some? then Err(fault.value)
        else if raw.budget.BudgetBlock? && !raw.budget.wellFormed then Err(InvalidBudgetSpec)
        else
          NoRoleMissing(raw.stages);
          RolesGiven(raw.stages);
          var edges := SortedEdges(EdgeSet(raw, flow));
          var stages := FoldStages(raw.stages);
          if raw.pattern.Some? && !PatternFits(raw.pattern.value, stages, edges) then Err(PatternNormalizationFailed)
          else Ok(Plan(Trim(raw.task.value), if raw.pattern.Some? then raw.pattern.value else Inferred(stages, edges),
                       stages, edges))
  }

  lemma {:induction false} RolesGiven(raws: seq<RawStage>)
    requires forall i | 0 <= i < |raws| :: !RoleMissing(raws[i])
    ensures forall i | 0 <= i < |raws| :: raws[i].profile.role.Some?
  {
    TrimIsTight("");
  }

  lemma {:induction false} NamedByElements(referrer: Id, names: seq<NodeId>, n: NodeId)
    ensures n in names ==> (referrer, n) in NamedBy(referrer, names)
    decreases |names|
  {
    if names != [] {
      NamedByElements(referrer, names[..|names| - 1], n);
      assert names == names[..|names| - 1] + [names[|names| - 1]];
    }
  }

  lemma {:induction false} EdgeReferencesElements(referrer: Id, edges: seq<PlanEdge>, e: PlanEdge)
    ensures e in edges ==> (referrer, e.from) in EdgeReferences(referrer, edges)
    ensures e in edges ==> (referrer, e.to) in EdgeReferences(referrer, edges)
    decreases |edges|
  {
    if edges != [] {
      EdgeReferencesElements(referrer, edges[..|edges| - 1], e);
      assert edges == edges[..|edges| - 1] + [edges[|edges| - 1]];
    }
  }

  lemma {:induction false} DependsKnown(raws: seq<RawStage>, known: set<NodeId>, e: PlanEdge)
    requires (forall r | r in DependReferences(raws) :: r.1 in known) && RawIds(raws) <= known
    requires e in AllDependEdges(raws)
    ensures e.from in known && e.to in known
    decreases |raws|
  {
    if raws != [] {
      var front, last := raws[..|raws| - 1], raws[|raws| - 1];
      assert raws == front + [last];
      assert last in raws && last.id in RawIds(raws);
      if e in DependEdges(last) {
        NamedByElements(last.id, OrElse(last.depends, []), e.from);
        assert (last.id, e.from) in DependReferences(raws);
      } else {
        assert RawIds(front) <= known by {
          forall r | r in front ensures r.id in known {
            assert r in raws && r.id in RawIds(raws);
          }
        }
        DependsKnown(front, known, e);
      }
    }
  }

  lemma {:induction false} EdgesKnown(raw: RawPlan, flow: seq<PlanEdge>, e: PlanEdge)
    requires RefFault(References(raw, flow), RawIds(raw.stages)) == None && e in EdgeSet(raw, flow)
    ensures e.from in RawIds(raw.stages) && e.to in RawIds(raw.stages)
  {
    var known := RawIds(raw.stages);
    var refs := References(raw, flow);
    AllKnown(refs, known);
    if e in AllDependEdges(raw.stages) {
      assert forall r | r in DependReferences(raw.stages) :: r in refs;
      DependsKnown(raw.stages, known, e);
    } else if e in flow {
      EdgeReferencesElements(FLOW_REFERRER, flow, e);
      assert (FLOW_REFERRER, e.from) in refs && (FLOW_REFERRER, e.to) in refs;
    } else {
      EdgeReferencesElements(EDGES_REFERRER, OrElse(raw.edges, []), e);
      assert (EDGES_REFERRER, e.from) in refs && (EDGES_REFERRER, e.to) in refs;
    }
  }

  lemma {:induction false} FoldedIds(raws: seq<RawStage>)
    requires forall i | 0 <= i < |raws| :: raws[i].profile.role.Some?
    ensures IdsOf(FoldStages(raws)) == RawIds(raws)
    ensures FirstRepeat(RawIdSeq(raws)) == None ==> DistinctIds(FoldStages(raws))
  {
    var stages := FoldStages(raws);
    NoneRepeats(RawIdSeq(raws));
    assert forall i | 0 <= i < |raws| :: stages[i].id == RawIdSeq(raws)[i];
    forall n | n in RawIds(raws) ensures n in IdsOf(stages) {
      var i :| 0 <= i < |raws| && raws[i].id == n;
      assert stages[i] in stages;
    }
    forall n | n in IdsOf(stages) ensures n in RawIds(raws) {
      var i :| 0 <= i < |stages| && stages[i].id == n;
      assert raws[i] in raws;
    }
  }

  /** What engine compile asks of a plan before it looks for cycles. */
  ghost predicate ReadyToCompile(p: Plan) {
    && Trim(p.task) != ""
    && DistinctIds(p.stages)
    && EndpointsKnown(IdsOf(p.stages), p.edges)
    && PatternFits(p.pattern, p.stages, p.edges)
  }

  /** An optional list names x. */
  predicate Names<T(==)>(list: Option<seq<T>>, x: T) {
    list.Some? && x in list.value
  }

  /**
   * A stage is what its raw form says: pre-gates from under the stage, post-gates from there
   * and from beside the profile keys, everything else field by field with the defaults.
   */
  ghost predicate StageAsWritten(raw: RawStage, s: StageSpec) {
    && s.id == raw.id && s.inputSchema == raw.inputSchema && s.doneCriteria == raw.doneCriteria
    && (forall g :: g in s.preGates <==> raw.gates.Some? && Names(raw.gates.value.pre, g))
    && (forall g :: g in s.postGates <==>
          Names(raw.profile.gates, g) || (raw.gates.Some? && Names(raw.gates.value.post, g)))
    && raw.profile.role == Some(s.profile.role.name) && s.profile.model == raw.profile.model
    && (forall x :: x in s.profile.tools <==> raw.profile.tools.Some? && x in raw.profile.tools.value)
    && (forall x :: x in s.profile.network <==>
          raw.profile.network.Some? && raw.profile.network.value.Some? && x in raw.profile.network.value.value)
    && s.profile.spawnTokenFloor
       == (if raw.profile.spawnTokenFloor.Some? then raw.profile.spawnTokenFloor.value else 0)
    && (s.isTerminal <==> raw.isTerminal == Some(true))
    && (s.isRouter <==> raw.isRouter == Some(true))
  }

  lemma {:induction false} FoldedStage(raw: RawStage)
    requires raw.profile.role.Some?
    ensures StageAsWritten(raw, FoldStage(raw))
  {
  }

  /** The edge is explicit, or a dependency of its target on its source, or stands in the flow text. */
  ghost predicate EdgeAsWritten(raw: RawPlan, e: PlanEdge) {
    || Names(raw.edges, e)
    || (exists r :: r in raw.stages && r.id == e.to && Names(r.depends, e.from))
    || InFlow(raw, e)
  }

  predicate InFlow(raw: RawPlan, e: PlanEdge) {
    && raw.flow.Some? && ParseFlow(raw.flow.value).Ok?
    && (e.from.name, e.to.name) in ParseFlow(raw.flow.value).value
  }

  lemma {:induction false} DependEdgesAsWritten(raws: seq<RawStage>, e: PlanEdge)
    ensures e in AllDependEdges(raws) <==> exists r :: r in raws && r.id == e.to && Names(r.depends, e.from)
    decreases |raws|
  {
    if raws != [] {
      var front, last := raws[..|raws| - 1], raws[|raws| - 1];
      assert forall r :: r in raws <==> r in front || r == last;
      DependEdgesAsWritten(front, e);
    }
  }

  lemma {:induction false} FlowAsWritten(raw: RawPlan, e: PlanEdge)
    requires ParsedFlow(raw).Ok?
    ensures e in ParsedFlow(raw).value <==> InFlow(raw, e)
  {
    if raw.flow.Some? {
      var es, edges := ParseFlow(raw.flow.value).value, ParsedFlow(raw).value;
      assert forall i | 0 <= i < |es| :: edges[i] == PlanEdge(Id(es[i].0), Id(es[i].1));
      if InFlow(raw, e) {
        var i :| 0 <= i < |es| && es[i] == (e.from.name, e.to.name);
        assert edges[i] == e;
      }
    }
  }

  lemma {:induction false} EdgeSetAsWritten(raw: RawPlan, e: PlanEdge)
    requires ParsedFlow(raw).Ok?
    ensures e in EdgeSet(raw, ParsedFlow(raw).value) <==> EdgeAsWritten(raw, e)
  {
    DependEdgesAsWritten(raw.stages, e);
    FlowAsWritten(raw, e);
  }

  /**
   * Every folded plan is ready; each stage is as written, in order; its edges are the union
   * of the three notations, in order; its goal text is the trimmed one, and a declared pattern is
   * the plan's.
   */
  lemma {:induction false} FoldedPlanIsReady(raw: RawPlan)
    requires Fold(raw).Ok?
    ensures var p := Fold(raw).value;
            && ReadyToCompile(p)
            && IdsOf(p.stages) == RawIds(raw.stages)
            && |p.stages| == |raw.stages|
            && (forall i | 0 <= i < |p.stages| :: StageAsWritten(raw.stages[i], p.stages[i]))
            && raw.task.Some? && p.task == Trim(raw.task.value)
            && p.pattern == (if raw.pattern.Some? then raw.pattern.value else Inferred(p.stages, p.edges))
            && EdgesAscend(p.edges)
            && forall e :: e in p.edges <==> EdgeAsWritten(raw, e)
  {
    var p := Fold(raw).value;
    var flow := ParsedFlow(raw).value;
    NoRoleMissing(raw.stages);
    RolesGiven(raw.stages);
    FoldedIds(raw.stages);
    forall i | 0 <= i < |p.stages| ensures StageAsWritten(raw.stages[i], p.stages[i]) {
      FoldedStage(raw.stages[i]);
    }
    TrimTwice(raw.task.value);
    SortedEdgesAscend(EdgeSet(raw, flow));
    forall e ensures e in p.edges <==> e in EdgeSet(raw, flow) {
      SortedEdgesElements(EdgeSet(raw, flow), e);
    }
    forall e ensures e in EdgeSet(raw, flow) <==> EdgeAsWritten(raw, e) {
      EdgeSetAsWritten(raw, e);
    }
    forall e | e in p.edges ensures e.from in IdsOf(p.stages) && e.to in IdsOf(p.stages) {
      EdgesKnown(raw, flow, e);
    }
    if raw.pattern.None? {
      InferredFits(p.stages, p.edges);
    }
  }

  method FindRoleMissing(raws: seq<RawStage>) returns (missing: Option<NodeId>)
    ensures missing == FirstRoleMissing(raws)
  {
    var i := 0;
    assert raws[0..] == raws;
    while i < |raws|
      invariant 0 <= i <= |raws|
      invariant FirstRoleMissing(raws) == FirstRoleMissing(raws[i..])
    {
      assert raws[i..][1..] == raws[i + 1..];
      if RoleMissing(raws[i]) {
        return Some(raws[i].id);
      }
      i := i + 1;
    }
    return None;
  }

  method CollectDepends(raws: seq<RawStage>) returns (edges: set<PlanEdge>)
    ensures edges == AllDependEdges(raws)
  {
    edges := {};
    var i := 0;
    while i < |raws|
      invariant 0 <= i <= |raws|
      invariant edges == AllDependEdges(raws[..i])
    {
      assert raws[..i + 1][..i] == raws[..i];
      edges := edges + DependEdges(raws[i]);
      i := i + 1;
    }
    assert raws[..i] == raws;
  }

  method FoldPlan(raw: RawPlan) returns (r: Result<Plan, CompileError>)
    ensures r == Fold(raw)
  {
    var ids := CollectIds(RawIdSeq(raw.stages));
    if ids.Err? {
      return Err(DuplicateNodeId(ids.error));
    }
    var missing := FindRoleMissing(raw.stages);
    if missing.Some? {
      return Err(ProfileMissing(missing.value));
    }
    if raw.task.None? || Trim(raw.task.value) == "" {
      return Err(MissingGoalOriginal);
    }
    var flow: seq<PlanEdge> := [];
    if raw.flow.Some? {
      var parsed := ParseFlowText(raw.flow.value);
      if parsed.Err? {
        return Err(InvalidDsl(parsed.error));
      }
      flow := FlowEdges(parsed.value);
    }
    var fault := CheckRefs(raw, flow);
    if fault.Some? {
      return Err(fault.value);
    }
    if raw.budget.BudgetBlock? && !raw.budget.wellFormed {
      return Err(InvalidBudgetSpec);
    }
    var depends := CollectDepends(raw.stages);
    var edges := SortedEdges(SetOf(OrElse(raw.edges, [])) + depends + SetOf(flow));
    NoRoleMissing(raw.stages);
    RolesGiven(raw.stages);
    var stages := FoldStages(raw.stages);
    if raw.pattern.Some? {
      var fits := CheckPattern(raw.pattern.value, stages, edges);
      if !fits {
        return Err(PatternNormalizationFailed);
      }
      return Ok(Plan(Trim(raw.task.value), raw.pattern.value, stages, edges));
    }
    FoldedIds(raw.stages);
    forall e | e in edges ensures e.from in IdsOf(stages) && e.to in IdsOf(stages) {
      SortedEdgesElements(EdgeSet(raw, flow), e);
      EdgesKnown(raw, flow, e);
    }
    var pattern := InferPattern(stages, edges);
    return Ok(Plan(Trim(raw.task.value), pattern, stages, edges));
  }
}
