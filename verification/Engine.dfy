/**
 * The deterministic engine (crates/hesmos-orchestrator/src/engine.rs): compiling a plan into
 * waves and committing nodes in the fixed order of the waves.
 */
module Engine {
  import opened Core
  import opened Prng
  import opened Domain
  import opened Waves
  import opened Budget
  import opened RunModel
  import opened CommitOrder
  import opened RunDurable
  import opened Patterns
  import opened PlanFold

  // ---------------------------------------------------------------- compile

  function UnknownEnds(ids: set<NodeId>, e: PlanEdge): seq<NodeId> {
    (if e.from in ids then [] else [e.from]) + (if e.to in ids then [] else [e.to])
  }

  /** The unknown endpoints of the first edge that has any. */
  function FirstUnknown(ids: set<NodeId>, edges: seq<PlanEdge>): Option<seq<NodeId>> {
    if edges == [] then None
    else if UnknownEnds(ids, edges[0]) != [] then Some(UnknownEnds(ids, edges[0]))
    else FirstUnknown(ids, edges[1..])
  }

  lemma {:induction false} NoneUnknown(ids: set<NodeId>, edges: seq<PlanEdge>)
    ensures FirstUnknown(ids, edges) == None <==> EndpointsKnown(ids, edges)
    decreases |edges|
  {
    if edges != [] {
      NoneUnknown(ids, edges[1..]);
      assert forall e :: e in edges <==> e == edges[0] || e in edges[1..];
    }
  }

  /** What compile refuses before it looks for cycles, in its order. */
  function CompileFault(p: Plan): Option<CompileError> {
    if Trim(p.task) == "" then Some(MissingGoalOriginal)
    else
      var repeated := FirstRepeat(IdSeq(p.stages));
      var unknown := FirstUnknown(IdsOf(p.stages), p.edges);
      if repeated.Some? then Some(DuplicateNodeId(repeated.value))
      else if unknown.Some? then Some(UnknownNodeRef(EDGES_REFERRER, unknown.value))
      else if !PatternFits(p.pattern, p.stages, p.edges) then Some(PatternNormalizationFailed)
      else None
  }

  /** Compile finds no fault exactly in ready plans. */
  lemma {:induction false} ReadyIffNoFault(p: Plan)
    ensures CompileFault(p) == None <==> ReadyToCompile(p)
  {
    NoneRepeats(IdSeq(p.stages));
    assert forall i | 0 <= i < |p.stages| :: IdSeq(p.stages)[i] == p.stages[i].id;
    NoneUnknown(IdsOf(p.stages), p.edges);
  }

  ghost predicate SuccessorMap(nodes: set<NodeId>, edges: seq<PlanEdge>, succs: map<NodeId, set<NodeId>>) {
    succs.Keys == nodes && forall n | n in nodes :: succs[n] == SuccessorsIn(edges, n)
  }

  lemma {:induction false} SuccessorMapSnoc(nodes: set<NodeId>, edges: seq<PlanEdge>, succs: map<NodeId, set<NodeId>>,
                                            e: PlanEdge)
    requires SuccessorMap(nodes, edges, succs) && e.from in nodes
    ensures SuccessorMap(nodes, edges + [e], succs[e.from := succs[e.from] + {e.to}])
  {
    assert forall f :: f in edges + [e] <==> f in edges || f == e;
    forall n | n in nodes
      ensures SuccessorsIn(edges + [e], n) == SuccessorsIn(edges, n) + if n == e.from then {e.to} else {}
    {
    }
  }

  /** Adjacency from the edges, or the unknown endpoints of the first bad edge. */
  method BuildSuccessors(nodes: set<NodeId>, edges: seq<PlanEdge>)
    returns (r: Result<map<NodeId, set<NodeId>>, seq<NodeId>>)
    ensures var unknown := FirstUnknown(nodes, edges);
            if unknown.Some? then r == Err(unknown.value) else r.Ok? && SuccessorMap(nodes, edges, r.value)
  {
    var succs: map<NodeId, set<NodeId>> := map n | n in nodes :: {};
    var i := 0;
    assert edges[0..] == edges;
    while i < |edges|
      invariant 0 <= i <= |edges|
      invariant FirstUnknown(nodes, edges) == FirstUnknown(nodes, edges[i..])
      invariant SuccessorMap(nodes, edges[..i], succs)
    {
      var e := edges[i];
      assert edges[i..][1..] == edges[i + 1..];
      if e.from !in nodes || e.to !in nodes {
        return Err(UnknownEnds(nodes, e));
      }
      SuccessorMapSnoc(nodes, edges[..i], succs, e);
      assert edges[..i + 1] == edges[..i] + [e];
      succs := succs[e.from := succs[e.from] + {e.to}];
      i := i + 1;
    }
    assert edges[..i] == edges;
    return Ok(succs);
  }

  datatype CompiledPlan = CompiledPlan(
    planHash: Digest, nodeCount: nat, seed: u64, waves: seq<seq<NodeId>>, prngState: u64)

  /** The stage count is the length of the commit order. */
  lemma {:induction false} StagesAreOrdered(p: Plan, ws: seq<seq<NodeId>>)
    requires DistinctIds(p.stages) && IsLevelling(GraphOf(p.stages, p.edges), {}, ws)
    ensures |p.stages| == |IdsOf(p.stages)| == |Flatten(ws)|
  {
    IdSeqIsIds(p.stages);
    DistinctSize(IdSeq(p.stages));
    OrderListsNodes(GraphOf(p.stages, p.edges), ws);
  }

  /**
   * Compiling: faults first; then waves exactly for acyclic plans, with the generator left
   * at one draw per stage, and otherwise a genuine cycle. The recorded stage count is the
   * length of the commit order, and the recorded hash is the plan's.
   */
  method CompilePlan(p: Plan, seed: u64, canonicalHash: Plan -> Digest) returns (r: Result<CompiledPlan, CompileError>)
    requires |IdsOf(p.stages)| < TWO64
    ensures CompileFault(p).Some? ==> r == Err(CompileFault(p).value)
    ensures CompileFault(p).None? ==> (r.Ok? <==> Acyclic(GraphOf(p.stages, p.edges)))
    ensures r.Ok? ==>
              && ReadyToCompile(p)
              && WavesFrom(GraphOf(p.stages, p.edges), {}, seed) == Some(r.value.waves)
              && IsLevelling(GraphOf(p.stages, p.edges), {}, r.value.waves)
              && r.value.prngState == StateAt(seed, |IdsOf(p.stages)|) && r.value.seed == seed
              && r.value.planHash == canonicalHash(p)
              && r.value.nodeCount == |p.stages| == |Flatten(r.value.waves)|
    ensures CompileFault(p).None? && r.Err? ==>
            r.error.CycleDetected? && IsCycle(GraphOf(p.stages, p.edges), r.error.path)
  {
    ReadyIffNoFault(p);
    if Trim(p.task) == "" {
      return Err(MissingGoalOriginal);
    }
    IdSeqIsIds(p.stages);
    var ids := CollectIds(IdSeq(p.stages));
    if ids.Err? {
      return Err(DuplicateNodeId(ids.error));
    }
    var succs := BuildSuccessors(ids.value, p.edges);
    if succs.Err? {
      return Err(UnknownNodeRef(EDGES_REFERRER, succs.error));
    }
    var fits := CheckPattern(p.pattern, p.stages, p.edges);
    if !fits {
      return Err(PatternNormalizationFailed);
    }
    var g := Digraph(ids.value, succs.value);
    assert g == GraphOf(p.stages, p.edges);
    GraphIsClosed(p.stages, p.edges);
    var prng := new SplitMix64(seed);
    var waves := BuildWaves(g, prng);
    match waves {
      case Ok(ws) =>
        StagesAreOrdered(p, ws);
        r := Ok(CompiledPlan(canonicalHash(p), |p.stages|, seed, ws, prng.state));
      case Err(cycle) => r := Err(CycleDetected(cycle.value));
    }
  }

  /** A plan that fold accepts fails engine compile only with a cycle. */
  method CompileFolded(raw: RawPlan, seed: u64, canonicalHash: Plan -> Digest)
    returns (r: Result<CompiledPlan, CompileError>)
    requires Fold(raw).Ok? && |RawIds(raw.stages)| < TWO64
    ensures var g := GraphOf(Fold(raw).value.stages, Fold(raw).value.edges);
            && (r.Ok? <==> Acyclic(g))
            && (r.Err? ==> r.error.CycleDetected? && IsCycle(g, r.error.path))
  {
    FoldedPlanIsReady(raw);
    ReadyIffNoFault(Fold(raw).value);
    r := CompilePlan(Fold(raw).value, seed, canonicalHash);
  }

  /** A ready plan with its waves makes a session whose runs the run theorems cover. */
  lemma {:induction false} CompiledPlanRuns(p: Plan, env: BudgetEnvelope, S: Session)
    requires ReadyToCompile(p)
    requires S.g == GraphOf(p.stages, p.edges) && IsLevelling(S.g, {}, S.waves)
    requires S.stages.Keys == IdsOf(p.stages) && S.budget == Freeze(env)
    ensures Compiled(S)
    ensures p.pattern == Sequential ==> OnePath(p.edges, S.waves)
  {
    GraphIsClosed(p.stages, p.edges);
    FrozenIsPaired(env);
    if p.pattern == Sequential {
      SequentialIsOnePath(p.stages, p.edges, S.waves);
    }
  }

  // ---------------------------------------------------------------- the commit cursor

  datatype StageOutput = StageOutput(node: NodeId, envelope: Envelope, confidence: real)

  datatype CommitReceipt = CommitReceipt(commitSeq: nat, eventHash: Digest)

  datatype CommitRecord = CommitRecord(seqNo: nat, node: NodeId, eventHash: Digest)

  function NodesCommitted(commits: seq<CommitRecord>): (ns: seq<NodeId>)
    ensures |ns| == |commits|
  {
    seq(|commits|, i requires 0 <= i < |commits| => commits[i].node)
  }

  class CompiledGraph {
    const waves: seq<seq<NodeId>>
    const prngState: u64
    const receiptHash: (nat, StageOutput) -> Digest
    var cursor: nat
    var waveCommitPos: nat
    var commits: seq<CommitRecord>

    constructor (compiled: CompiledPlan, receiptHash: (nat, StageOutput) -> Digest)
      requires NonEmptyWaves(compiled.waves)
      ensures waves == compiled.waves && prngState == compiled.prngState && this.receiptHash == receiptHash
      ensures Valid() && commits == [] && cursor == 0 && waveCommitPos == 0
    {
      waves, prngState, this.receiptHash := compiled.waves, compiled.prngState, receiptHash;
      cursor, waveCommitPos, commits := 0, 0, [];
    }

    /** The commits are the first nodes of the wave order, numbered from one, and the cursor stands behind them. */
    ghost predicate Valid()
      reads this
    {
      && NonEmptyWaves(waves)
      && cursor <= |waves| && |commits| == StartOf(waves, cursor) + waveCommitPos
      && (if cursor < |waves| then waveCommitPos < |waves[cursor]| else waveCommitPos == 0)
      && NodesCommitted(commits) <= Flatten(waves)
      && forall i | 0 <= i < |commits| :: commits[i].seqNo == i + 1
    }

    /** The active wave; none exactly when every node is committed. */
    method NextWave() returns (wave: Option<(nat, seq<NodeId>)>)
      requires Valid()
      ensures wave.None? <==> |commits| == |Flatten(waves)|
      ensures wave.Some? ==>
                && cursor < |waves| && wave.value == (cursor, waves[cursor])
                && StartOf(waves, cursor) <= |commits| < StartOf(waves, cursor) + |waves[cursor]|
    {
      FlattenLength(waves);
      if cursor < |waves| {
        FlattenAt(waves, cursor, waveCommitPos);
        return Some((cursor, waves[cursor]));
      }
      return None;
    }

    /**
     * Commits a node, if it is the next of the wave order; the order assertion fires for any
     * other node, and then nothing has changed.
     */
    method Commit(out: StageOutput) returns (receipt: Option<CommitReceipt>)
      requires Valid()
      modifies this
      ensures Valid()
      ensures receipt.Some? <==> old(|commits|) < |Flatten(waves)| && out.node == Flatten(waves)[old(|commits|)]
      ensures receipt.Some? ==>
                var seqNo := old(|commits|) + 1;
                && receipt.value == CommitReceipt(seqNo, receiptHash(seqNo, out))
                && commits == old(commits) + [CommitRecord(seqNo, out.node, receiptHash(seqNo, out))]
      ensures receipt.Some? <==> old(cursor) < |waves| && waves[old(cursor)][old(waveCommitPos)] == out.node
      ensures receipt.Some? ==>
                var wraps := old(waveCommitPos) + 1 == |waves[old(cursor)]|;
                && cursor == (if wraps then old(cursor) + 1 else old(cursor))
                && waveCommitPos == (if wraps then 0 else old(waveCommitPos) + 1)
      ensures receipt.None? ==> commits == old(commits) && cursor == old(cursor) && waveCommitPos == old(waveCommitPos)
    {
      FlattenLength(waves);
      if cursor >= |waves| {
        return None;
      }
      var wave := waves[cursor];
      FlattenAt(waves, cursor, waveCommitPos);
      if out.node != wave[waveCommitPos] {
        return None;
      }
      var seqNo := |commits| + 1;
      var eventHash := receiptHash(seqNo, out);
      commits := commits + [CommitRecord(seqNo, out.node, eventHash)];
      waveCommitPos := waveCommitPos + 1;
      if waveCommitPos == |wave| {
        cursor := cursor + 1;
        waveCommitPos := 0;
      }
      return Some(CommitReceipt(seqNo, eventHash));
    }
  }
}
