/**
 * What a refused plan is told (fold and check_refs in
 * crates/hesmos-orchestrator/src/compile.rs, compile in engine.rs): the first defect in the
 * fixed order of detection, with the names that make it up.
 */
module PlanFaults {
  import opened Core
  import opened Orders
  import opened Domain
  import opened FlowDsl
  import opened Patterns
  import opened PlanFold
  import opened Engine

  // ---------------------------------------------------------------- first defects

  /** The j-th id is the first that stood before. */
  ghost predicate RepeatsAt(ns: seq<NodeId>, j: nat) {
    j < |ns| && ns[j] in ns[..j] && Distinct(ns[..j])
  }

  lemma {:induction false} RepeatFound(ns: seq<NodeId>) returns (j: nat)
    requires FirstRepeat(ns).Some?
    ensures RepeatsAt(ns, j) && FirstRepeat(ns) == Some(ns[j])
    decreases |ns|
  {
    var front := ns[..|ns| - 1];
    if FirstRepeat(front).Some? {
      j := RepeatFound(front);
      assert front[..j] == ns[..j];
    } else {
      j := |ns| - 1;
      NoneRepeats(front);
    }
  }

  /** The i-th stage is the first whose role is absent or blank. */
  ghost predicate BlankAt(raws: seq<RawStage>, i: nat) {
    && i < |raws| && RoleMissing(raws[i])
    && forall k | 0 <= k < i :: !RoleMissing(raws[k])
  }

  lemma {:induction false} BlankFound(raws: seq<RawStage>) returns (i: nat)
    requires FirstRoleMissing(raws).Some?
    ensures BlankAt(raws, i) && FirstRoleMissing(raws) == Some(raws[i].id)
    decreases |raws|
  {
    i := 0;
    if !RoleMissing(raws[0]) {
      var k := BlankFound(raws[1..]);
      i := k + 1;
      forall m | 0 <= m < i ensures !RoleMissing(raws[m]) {
        assert m > 0 ==> raws[m] == raws[1..][m - 1];
      }
    }
  }

  // ---------------------------------------------------------------- references

  predicate EndOf(e: PlanEdge, n: NodeId) {
    e.from == n || e.to == n
  }

  /** Under this name the plan mentions n: as a dependency of a stage, in the flow text, or in the explicit edges. */
  ghost predicate Refers(raw: RawPlan, referrer: Id, n: NodeId) {
    || (exists r :: r in raw.stages && r.id == referrer && Names(r.depends, n))
    || (referrer == Id("<flow>") && exists e :: InFlow(raw, e) && EndOf(e, n))
    || (referrer == Id("<edges>") && exists e :: Names(raw.edges, e) && EndOf(e, n))
  }

  lemma {:induction false} NamedByExactly(referrer: Id, names: seq<NodeId>, ref: Reference)
    ensures ref in NamedBy(referrer, names) <==> ref.0 == referrer && ref.1 in names
    decreases |names|
  {
    if names != [] {
      NamedByExactly(referrer, names[..|names| - 1], ref);
      assert names == names[..|names| - 1] + [names[|names| - 1]];
    }
  }

  lemma {:induction false} DependsExactly(raws: seq<RawStage>, ref: Reference)
    ensures ref in DependReferences(raws) <==> exists r :: r in raws && r.id == ref.0 && Names(r.depends, ref.1)
    decreases |raws|
  {
    if raws != [] {
      var front, last := raws[..|raws| - 1], raws[|raws| - 1];
      assert forall r :: r in raws <==> r in front || r == last;
      DependsExactly(front, ref);
      NamedByExactly(last.id, OrElse(last.depends, []), ref);
    }
  }

  lemma {:induction false} EdgesExactly(referrer: Id, edges: seq<PlanEdge>, ref: Reference)
    ensures ref in EdgeReferences(referrer, edges)
            <==> ref.0 == referrer && exists e :: e in edges && EndOf(e, ref.1)
    decreases |edges|
  {
    if edges != [] {
      var front, last := edges[..|edges| - 1], edges[|edges| - 1];
      assert forall e :: e in edges <==> e in front || e == last;
      EdgesExactly(referrer, front, ref);
      assert ref in EdgeReferences(referrer, edges) <==>
        ref in EdgeReferences(referrer, front) || (ref.0 == referrer && EndOf(last, ref.1));
    }
  }

  lemma {:induction false} ReferencesExactly(raw: RawPlan, ref: Reference)
    requires ParsedFlow(raw).Ok?
    ensures ref in References(raw, ParsedFlow(raw).value) <==> Refers(raw, ref.0, ref.1)
  {
    var flow := ParsedFlow(raw).value;
    DependsExactly(raw.stages, ref);
    EdgesExactly(FLOW_REFERRER, flow, ref);
    EdgesExactly(EDGES_REFERRER, OrElse(raw.edges, []), ref);
    forall e ensures e in flow <==> InFlow(raw, e) {
      FlowAsWritten(raw, e);
    }
    assert forall e :: e in OrElse(raw.edges, []) <==> Names(raw.edges, e);
  }

  /** The referrer mentions an unknown node. */
  ghost predicate Offends(raw: RawPlan, referrer: Id) {
    exists n :: Refers(raw, referrer, n) && n !in RawIds(raw.stages)
  }

  /** The names are the unknown ones of this referrer, in order, and no referrer before it has any. */
  ghost predicate FirstOffender(raw: RawPlan, referrer: Id, names: seq<NodeId>) {
    && names != [] && Ascending(names)
    && (forall n :: n in names <==> Refers(raw, referrer, n) && n !in RawIds(raw.stages))
    && forall other | Offends(raw, other) :: other == referrer || Less(referrer, other)
  }

  lemma {:induction false} MissingExactly(raw: RawPlan, referrer: Id, n: NodeId)
    requires ParsedFlow(raw).Ok?
    ensures n in MissingOf(References(raw, ParsedFlow(raw).value), RawIds(raw.stages), referrer)
            <==> Refers(raw, referrer, n) && n !in RawIds(raw.stages)
  {
    ReferencesExactly(raw, (referrer, n));
  }

  lemma {:induction false} OffendersExactly(raw: RawPlan, referrer: Id)
    requires ParsedFlow(raw).Ok?
    ensures referrer in Offenders(References(raw, ParsedFlow(raw).value), RawIds(raw.stages)) <==>
            Offends(raw, referrer)
  {
    var refs := References(raw, ParsedFlow(raw).value);
    if referrer in Offenders(refs, RawIds(raw.stages)) {
      var r :| r in refs && r.1 !in RawIds(raw.stages) && r.0 == referrer;
      ReferencesExactly(raw, r);
    }
    if Offends(raw, referrer) {
      var n :| Refers(raw, referrer, n) && n !in RawIds(raw.stages);
      ReferencesExactly(raw, (referrer, n));
    }
  }

  lemma {:induction false} RefFaultTells(raw: RawPlan)
    requires ParsedFlow(raw).Ok?
    ensures var fault := RefFault(References(raw, ParsedFlow(raw).value), RawIds(raw.stages));
            && (fault.None? <==> forall referrer :: !Offends(raw, referrer))
            && (fault.Some? ==>
                  && fault.value.UnknownNodeRef?
                  && FirstOffender(raw, fault.value.referrer, fault.value.refs))
  {
    var refs, known := References(raw, ParsedFlow(raw).value), RawIds(raw.stages);
    var bad := Offenders(refs, known);
    forall referrer ensures referrer in bad <==> Offends(raw, referrer) {
      OffendersExactly(raw, referrer);
    }
    if bad != {} {
      var first := First(bad);
      var missing := MissingOf(refs, known, first);
      SortedSpec(missing);
      forall n ensures n in missing <==> Refers(raw, first, n) && n !in known {
        MissingExactly(raw, first, n);
      }
      assert Offends(raw, first);
    }
  }

  // ---------------------------------------------------------------- what fold tells

  ghost predicate StagesNamed(raw: RawPlan) {
    Distinct(RawIdSeq(raw.stages)) && forall i | 0 <= i < |raw.stages| :: !RoleMissing(raw.stages[i])
  }

  predicate GoalGiven(raw: RawPlan) {
    raw.task.Some? && Trim(raw.task.value) != ""
  }

  ghost predicate AllReferencesKnown(raw: RawPlan) {
    forall referrer :: !Offends(raw, referrer)
  }

  /** Stages and edges as the raw plan says. */
  ghost predicate AsWritten(raw: RawPlan, stages: seq<StageSpec>, edges: seq<PlanEdge>) {
    && |stages| == |raw.stages|
    && (forall i | 0 <= i < |stages| :: StageAsWritten(raw.stages[i], stages[i]))
    && EdgesAscend(edges) && forall e :: e in edges <==> EdgeAsWritten(raw, e)
  }

  lemma {:induction false} FoldedAsWritten(raw: RawPlan)
    requires ParsedFlow(raw).Ok? && forall i | 0 <= i < |raw.stages| :: raw.stages[i].profile.role.Some?
    ensures AsWritten(raw, FoldStages(raw.stages), SortedEdges(EdgeSet(raw, ParsedFlow(raw).value)))
  {
    var es := EdgeSet(raw, ParsedFlow(raw).value);
    forall i | 0 <= i < |raw.stages| ensures StageAsWritten(raw.stages[i], FoldStages(raw.stages)[i]) {
      FoldedStage(raw.stages[i]);
    }
    SortedEdgesAscend(es);
    forall e ensures e in SortedEdges(es) <==> EdgeAsWritten(raw, e) {
      SortedEdgesElements(es, e);
      EdgeSetAsWritten(raw, e);
    }
  }

  /** The stages and edges as written fail the shape test of this pattern. */
  ghost predicate PatternMisfits(raw: RawPlan, pattern: PatternKind) {
    exists stages, edges :: AsWritten(raw, stages, edges) && !PatternFits(pattern, stages, edges)
  }

  lemma {:induction false} MisfitFound(raw: RawPlan, pattern: PatternKind)
    requires ParsedFlow(raw).Ok? && forall i | 0 <= i < |raw.stages| :: raw.stages[i].profile.role.Some?
    requires var edges := SortedEdges(EdgeSet(raw, ParsedFlow(raw).value));
             !PatternFits(pattern, FoldStages(raw.stages), edges)
    ensures PatternMisfits(raw, pattern)
  {
    FoldedAsWritten(raw);
  }

  lemma {:induction false} PatternRefused(raw: RawPlan)
    requires Fold(raw) == Err(PatternNormalizationFailed) && StagesNamed(raw) && GoalGiven(raw) && ParsedFlow(raw).Ok?
    requires AllReferencesKnown(raw)
    ensures RefusedFor(raw, PatternNormalizationFailed)
  {
    NoneRepeats(RawIdSeq(raw.stages));
    NoRoleMissing(raw.stages);
    RefFaultTells(raw);
    RolesGiven(raw.stages);
    MisfitFound(raw, raw.pattern.value);
  }

  /** The plan passes every check before this one and fails this one, as the error says. */
  ghost predicate RefusedFor(raw: RawPlan, e: CompileError) {
    match e
    case DuplicateNodeId(n) => exists j: nat :: RepeatsAt(RawIdSeq(raw.stages), j) && RawIdSeq(raw.stages)[j] == n
    case ProfileMissing(n) =>
      && Distinct(RawIdSeq(raw.stages))
      && exists i: nat :: BlankAt(raw.stages, i) && raw.stages[i].id == n
    case MissingGoalOriginal => StagesNamed(raw) && !GoalGiven(raw)
    case InvalidDsl(stmt) =>
      StagesNamed(raw) && GoalGiven(raw) && raw.flow.Some? && ParseFlow(raw.flow.value) == Err(stmt)
    case UnknownNodeRef(referrer, names) =>
      && StagesNamed(raw) && GoalGiven(raw) && ParsedFlow(raw).Ok?
      && FirstOffender(raw, referrer, names)
    case InvalidBudgetSpec =>
      && StagesNamed(raw) && GoalGiven(raw) && ParsedFlow(raw).Ok? && AllReferencesKnown(raw)
      && raw.budget == BudgetBlock(false)
    case PatternNormalizationFailed =>
      && StagesNamed(raw) && GoalGiven(raw) && ParsedFlow(raw).Ok? && AllReferencesKnown(raw)
      && raw.budget != BudgetBlock(false) && raw.pattern.Some?
      && PatternMisfits(raw, raw.pattern.value)
    case CycleDetected(_) => false
  }

  /** A refused plan is told its first defect in the order of detection. */
  lemma {:induction false} RefusalTells(raw: RawPlan)
    requires Fold(raw).Err?
    ensures RefusedFor(raw, Fold(raw).error)
  {
    NoneRepeats(RawIdSeq(raw.stages));
    NoRoleMissing(raw.stages);
    if FirstRepeat(RawIdSeq(raw.stages)).Some? {
      var j := RepeatFound(RawIdSeq(raw.stages));
    } else if FirstRoleMissing(raw.stages).Some? {
      var i := BlankFound(raw.stages);
    } else if GoalGiven(raw) && ParsedFlow(raw).Ok? {
      RefFaultTells(raw);
      if Fold(raw) == Err(PatternNormalizationFailed) {
        PatternRefused(raw);
      }
    }
  }

  // ---------------------------------------------------------------- what the engine tells

  /** Edge k is the first with an unknown end. */
  ghost predicate UnknownAt(p: Plan, k: nat) {
    && k < |p.edges| && (p.edges[k].from !in IdsOf(p.stages) || p.edges[k].to !in IdsOf(p.stages))
    && EndpointsKnown(IdsOf(p.stages), p.edges[..k])
  }

  lemma {:induction false} UnknownFound(ids: set<NodeId>, edges: seq<PlanEdge>) returns (k: nat)
    requires FirstUnknown(ids, edges).Some?
    ensures k < |edges| && EndpointsKnown(ids, edges[..k])
    ensures FirstUnknown(ids, edges) == Some(UnknownEnds(ids, edges[k])) && UnknownEnds(ids, edges[k]) != []
    decreases |edges|
  {
    k := 0;
    if UnknownEnds(ids, edges[0]) == [] {
      var i := UnknownFound(ids, edges[1..]);
      k := i + 1;
      assert forall e :: e in edges[..k] <==> e == edges[0] || e in edges[1..][..i] by {
        assert edges[..k] == [edges[0]] + edges[1..][..i];
      }
    }
  }

  ghost predicate FaultyFor(p: Plan, e: CompileError) {
    match e
    case MissingGoalOriginal => Trim(p.task) == ""
    case DuplicateNodeId(n) =>
      Trim(p.task) != "" && exists j: nat :: RepeatsAt(IdSeq(p.stages), j) && p.stages[j].id == n
    case UnknownNodeRef(referrer, names) =>
      && Trim(p.task) != "" && Distinct(IdSeq(p.stages)) && referrer == Id("<edges>")
      && exists k: nat :: UnknownAt(p, k) && UnknownNames(p, p.edges[k], names)
    case PatternNormalizationFailed =>
      && Trim(p.task) != "" && Distinct(IdSeq(p.stages)) && EndpointsKnown(IdsOf(p.stages), p.edges)
      && !PatternFits(p.pattern, p.stages, p.edges)
    case _ => false
  }

  /** The unknown ends of the edge, the source first. */
  ghost predicate UnknownNames(p: Plan, e: PlanEdge, names: seq<NodeId>) {
    if e.from in IdsOf(p.stages) then names == [e.to]
    else if e.to in IdsOf(p.stages) then names == [e.from]
    else names == [e.from, e.to]
  }

  /** A plan that the engine refuses before the cycle check is told its first fault. */
  lemma {:induction false} FaultTells(p: Plan)
    requires CompileFault(p).Some?
    ensures FaultyFor(p, CompileFault(p).value)
  {
    NoneRepeats(IdSeq(p.stages));
    NoneUnknown(IdsOf(p.stages), p.edges);
    if Trim(p.task) != "" {
      if FirstRepeat(IdSeq(p.stages)).Some? {
        var j := RepeatFound(IdSeq(p.stages));
        assert IdSeq(p.stages)[j] == p.stages[j].id;
      } else if FirstUnknown(IdsOf(p.stages), p.edges).Some? {
        var k := UnknownFound(IdsOf(p.stages), p.edges);
        assert UnknownAt(p, k);
      }
    }
  }
}
