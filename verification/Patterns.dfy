/**
 * The pattern check and the pattern inference (crates/hesmos-orchestrator/src/compile.rs):
 * two different tests on degrees that agree, and what the sequential test means for waves.
 */
module Patterns {
  import opened Core
  import opened Domain
  import opened Waves

  // ---------------------------------------------------------------- repeated ids

  /** The first id that occurred before. */
  function FirstRepeat(ns: seq<NodeId>): Option<NodeId> {
    if ns == [] then None else
      var front, last := ns[..|ns| - 1], ns[|ns| - 1];
      var earlier := FirstRepeat(front);
      if earlier.Some? then earlier else if last in front then Some(last) else None
  }

  /** No id is reported exactly when all differ. */
  lemma {:induction false} NoneRepeats(ns: seq<NodeId>)
    ensures FirstRepeat(ns) == None <==> Distinct(ns)
    decreases |ns|
  {
    if ns != [] {
      NoneRepeats(ns[..|ns| - 1]);
    }
  }

  lemma {:induction false} RepeatStays(ns: seq<NodeId>, i: nat)
    requires i <= |ns| && FirstRepeat(ns[..i]).Some?
    ensures FirstRepeat(ns) == FirstRepeat(ns[..i])
    decreases |ns| - i
  {
    if i < |ns| {
      assert ns[..i + 1][..i] == ns[..i];
      RepeatStays(ns, i + 1);
    } else {
      assert ns[..i] == ns;
    }
  }

  /** Inserts ids one by one; the set of all, or the first repeated one. */
  method CollectIds(ns: seq<NodeId>) returns (r: Result<set<NodeId>, NodeId>)
    ensures FirstRepeat(ns).Some? ==> r == Err(FirstRepeat(ns).value)
    ensures FirstRepeat(ns).None? ==> r == Ok(SetOf(ns))
  {
    var seen: set<NodeId> := {};
    var i := 0;
    while i < |ns|
      invariant 0 <= i <= |ns|
      invariant seen == SetOf(ns[..i]) && FirstRepeat(ns[..i]) == None
    {
      assert ns[..i + 1] == ns[..i] + [ns[i]];
      SetOfSnoc(ns[..i], ns[i]);
      if ns[i] in seen {
        RepeatStays(ns, i + 1);
        return Err(ns[i]);
      }
      seen := seen + {ns[i]};
      i := i + 1;
    }
    assert ns[..i] == ns;
    return Ok(seen);
  }

  // ---------------------------------------------------------------- degrees

  /** How many edges end at n. */
  function InDeg(edges: seq<PlanEdge>, n: NodeId): nat {
    if edges == [] then 0
    else InDeg(edges[..|edges| - 1], n) + if edges[|edges| - 1].to == n then 1 else 0
  }

  /** How many edges start at n. */
  function OutDeg(edges: seq<PlanEdge>, n: NodeId): nat {
    if edges == [] then 0
    else OutDeg(edges[..|edges| - 1], n) + if edges[|edges| - 1].from == n then 1 else 0
  }

  function IdsOf(stages: seq<StageSpec>): set<NodeId> {
    set s | s in stages :: s.id
  }

  predicate EndpointsKnown(ids: set<NodeId>, edges: seq<PlanEdge>) {
    forall e | e in edges :: e.from in ids && e.to in ids
  }

  function Roots(ids: set<NodeId>, edges: seq<PlanEdge>): set<NodeId> {
    set n | n in ids && InDeg(edges, n) == 0
  }

  predicate Linear(stages: seq<StageSpec>, edges: seq<PlanEdge>) {
    forall s | s in stages :: InDeg(edges, s.id) <= 1 && OutDeg(edges, s.id) <= 1
  }

  /** A directed edge count per node, as the degree maps hold it. */
  ghost predicate DegreesOf(ids: set<NodeId>, edges: seq<PlanEdge>, indeg: map<NodeId, nat>, outdeg: map<NodeId, nat>) {
    && indeg.Keys == ids && outdeg.Keys == ids
    && forall n | n in ids :: indeg[n] == InDeg(edges, n) && outdeg[n] == OutDeg(edges, n)
  }

  lemma {:induction false} DegreeSnoc(edges: seq<PlanEdge>, e: PlanEdge, n: NodeId)
    ensures InDeg(edges + [e], n) == InDeg(edges, n) + if e.to == n then 1 else 0
    ensures OutDeg(edges + [e], n) == OutDeg(edges, n) + if e.from == n then 1 else 0
  {
    assert (edges + [e])[..|edges|] == edges;
  }

  /** Counts degrees edge by edge; nothing when an endpoint is no stage. */
  method CountDegrees(stages: seq<StageSpec>, edges: seq<PlanEdge>)
    returns (r: Option<(map<NodeId, nat>, map<NodeId, nat>)>)
    ensures r.Some? <==> EndpointsKnown(IdsOf(stages), edges)
    ensures r.Some? ==> DegreesOf(IdsOf(stages), edges, r.value.0, r.value.1)
  {
    var ids := IdsOf(stages);
    var indeg: map<NodeId, nat> := map n | n in ids :: 0;
    var outdeg: map<NodeId, nat> := map n | n in ids :: 0;
    var i := 0;
    while i < |edges|
      invariant 0 <= i <= |edges|
      invariant EndpointsKnown(ids, edges[..i])
      invariant DegreesOf(ids, edges[..i], indeg, outdeg)
    {
      var e := edges[i];
      if e.from !in outdeg || e.to !in indeg {
        assert e in edges;
        return None;
      }
      assert edges[..i + 1] == edges[..i] + [e];
      forall n | n in ids
        ensures InDeg(edges[..i + 1], n) == InDeg(edges[..i], n) + (if e.to == n then 1 else 0)
        ensures OutDeg(edges[..i + 1], n) == OutDeg(edges[..i], n) + (if e.from == n then 1 else 0)
      {
        DegreeSnoc(edges[..i], e, n);
      }
      outdeg := outdeg[e.from := outdeg[e.from] + 1];
      indeg := indeg[e.to := indeg[e.to] + 1];
      i := i + 1;
    }
    assert edges[..i] == edges;
    return Some((indeg, outdeg));
  }

  // ---------------------------------------------------------------- check and inference

  /** Whether the edge shape can express the pattern. */
  predicate PatternFits(p: PatternKind, stages: seq<StageSpec>, edges: seq<PlanEdge>) {
    match p
    case Sequential =>
      && EndpointsKnown(IdsOf(stages), edges)
      && |Roots(IdsOf(stages), edges)| == 1 && Linear(stages, edges) && |edges| + 1 == |stages|
    case Parallel => edges == []
    case Swarm => exists s | s in stages :: s.isRouter
    case Graph => true
  }

  /** The most specific pattern that fits; needs known endpoints unless there are no edges. */
  function Inferred(stages: seq<StageSpec>, edges: seq<PlanEdge>): PatternKind {
    if edges == [] then Parallel
    else if Linear(stages, edges) && |edges| + 1 == |stages| then Sequential
    else if exists s | s in stages :: s.isRouter then Swarm
    else Graph
  }

  method AllLinear(stages: seq<StageSpec>, edges: seq<PlanEdge>, indeg: map<NodeId, nat>, outdeg: map<NodeId, nat>)
    returns (ok: bool)
    requires DegreesOf(IdsOf(stages), edges, indeg, outdeg)
    ensures ok <==> Linear(stages, edges)
  {
    ok := true;
    var i := 0;
    while i < |stages|
      invariant 0 <= i <= |stages|
      invariant ok <==> Linear(stages[..i], edges)
    {
      assert stages[i] in stages && stages[i].id in IdsOf(stages);
      assert forall s :: s in stages[..i + 1] <==> s in stages[..i] || s == stages[i];
      if indeg[stages[i].id] > 1 || outdeg[stages[i].id] > 1 {
        ok := false;
      }
      i := i + 1;
    }
    assert stages[..i] == stages;
  }

  method CheckPattern(p: PatternKind, stages: seq<StageSpec>, edges: seq<PlanEdge>) returns (ok: bool)
    ensures ok <==> PatternFits(p, stages, edges)
  {
    match p {
      case Sequential =>
        var degrees := CountDegrees(stages, edges);
        if degrees.None? {
          return false;
        }
        var (indeg, outdeg) := degrees.value;
        var roots := set n | n in indeg && indeg[n] == 0;
        assert roots == Roots(IdsOf(stages), edges);
        var linear := AllLinear(stages, edges, indeg, outdeg);
        ok := |roots| == 1 && linear && |edges| + 1 == |stages|;
      case Parallel =>
        ok := edges == [];
      case Swarm =>
        ok := exists s | s in stages :: s.isRouter;
      case Graph =>
        ok := true;
    }
  }

  method InferPattern(stages: seq<StageSpec>, edges: seq<PlanEdge>) returns (p: PatternKind)
    requires EndpointsKnown(IdsOf(stages), edges)
    ensures p == Inferred(stages, edges)
  {
    if edges == [] {
      return Parallel;
    }
    var degrees := CountDegrees(stages, edges);
    var linear := AllLinear(stages, edges, degrees.value.0, degrees.value.1);
    if linear && |edges| + 1 == |stages| {
      return Sequential;
    }
    if exists s | s in stages :: s.isRouter {
      return Swarm;
    }
    return Graph;
  }

  // ---------------------------------------------------------------- the two tests agree

  /** In-degrees summed over a list of nodes. */
  function SumIn(ns: seq<NodeId>, edges: seq<PlanEdge>): nat {
    if ns == [] then 0 else SumIn(ns[..|ns| - 1], edges) + InDeg(edges, ns[|ns| - 1])
  }

  lemma {:induction false} SumInSnoc(ns: seq<NodeId>, edges: seq<PlanEdge>, e: PlanEdge)
    requires Distinct(ns)
    ensures SumIn(ns, edges + [e]) == SumIn(ns, edges) + if e.to in ns then 1 else 0
    decreases |ns|
  {
    if ns != [] {
      var front, n := ns[..|ns| - 1], ns[|ns| - 1];
      SumInSnoc(front, edges, e);
      DegreeSnoc(edges, e, n);
      assert ns == front + [n];
      assert e.to in ns <==> e.to in front || e.to == n;
    }
  }

  /** Every edge ends at exactly one node: in-degrees add up to the number of edges. */
  lemma {:induction false} DegreesCountEdges(ns: seq<NodeId>, edges: seq<PlanEdge>)
    requires Distinct(ns) && EndpointsKnown(SetOf(ns), edges)
    ensures SumIn(ns, edges) == |edges|
    decreases |edges|
  {
    if edges == [] {
      NoEdgesNoSum(ns);
    } else {
      var front, e := edges[..|edges| - 1], edges[|edges| - 1];
      assert edges == front + [e];
      assert forall f | f in front :: f in edges;
      DegreesCountEdges(ns, front);
      SumInSnoc(ns, front, e);
      assert e in edges && e.to in SetOf(ns);
    }
  }

  lemma {:induction false} NoEdgesNoSum(ns: seq<NodeId>)
    ensures SumIn(ns, []) == 0
    decreases |ns|
  {
    if ns != [] {
      NoEdgesNoSum(ns[..|ns| - 1]);
    }
  }

  lemma {:induction false} RootsSnoc(ids: set<NodeId>, n: NodeId, edges: seq<PlanEdge>)
    requires n !in ids
    ensures |Roots(ids + {n}, edges)| == |Roots(ids, edges)| + if InDeg(edges, n) == 0 then 1 else 0
  {
    var more := if InDeg(edges, n) == 0 then {n} else {};
    assert Roots(ids + {n}, edges) == Roots(ids, edges) + more;
  }

  /** With in-degrees of at most one, the roots are the nodes the sum leaves out. */
  lemma {:induction false} RootsMakeUp(ns: seq<NodeId>, edges: seq<PlanEdge>)
    requires Distinct(ns) && forall n | n in ns :: InDeg(edges, n) <= 1
    ensures |Roots(SetOf(ns), edges)| + SumIn(ns, edges) == |ns|
    decreases |ns|
  {
    if ns == [] {
      assert Roots(SetOf(ns), edges) == {};
    } else {
      var front, n := ns[..|ns| - 1], ns[|ns| - 1];
      assert ns == front + [n];
      RootsMakeUp(front, edges);
      SetOfSnoc(front, n);
      RootsSnoc(SetOf(front), n, edges);
    }
  }

  ghost predicate DistinctIds(stages: seq<StageSpec>) {
    forall i, j | 0 <= i < j < |stages| :: stages[i].id != stages[j].id
  }

  function IdSeq(stages: seq<StageSpec>): (ns: seq<NodeId>)
    ensures |ns| == |stages|
  {
    seq(|stages|, i requires 0 <= i < |stages| => stages[i].id)
  }

  lemma {:induction false} IdSeqIsIds(stages: seq<StageSpec>)
    ensures SetOf(IdSeq(stages)) == IdsOf(stages)
  {
    var ns := IdSeq(stages);
    forall n | n in IdsOf(stages) ensures n in ns {
      var i :| 0 <= i < |stages| && stages[i].id == n;
      assert ns[i] == n;
    }
    forall n | n in ns ensures n in IdsOf(stages) {
      var i :| 0 <= i < |ns| && ns[i] == n;
      assert stages[i] in stages;
    }
  }

  /** Linear stages with one edge less than stages have exactly one root. */
  lemma {:induction false} LinearHasOneRoot(stages: seq<StageSpec>, edges: seq<PlanEdge>)
    requires DistinctIds(stages) && EndpointsKnown(IdsOf(stages), edges)
    requires Linear(stages, edges) && |edges| + 1 == |stages|
    ensures |Roots(IdsOf(stages), edges)| == 1
  {
    var ns := IdSeq(stages);
    IdSeqIsIds(stages);
    DegreesCountEdges(ns, edges);
    forall n | n in ns ensures InDeg(edges, n) <= 1 {
      var i :| 0 <= i < |ns| && ns[i] == n;
      assert stages[i] in stages;
    }
    RootsMakeUp(ns, edges);
  }

  /** Whatever pattern is inferred passes the check. */
  lemma {:induction false} InferredFits(stages: seq<StageSpec>, edges: seq<PlanEdge>)
    requires DistinctIds(stages) && EndpointsKnown(IdsOf(stages), edges)
    ensures PatternFits(Inferred(stages, edges), stages, edges)
  {
    if edges != [] && Linear(stages, edges) && |edges| + 1 == |stages| {
      LinearHasOneRoot(stages, edges);
    }
  }

  /** The patterns from the most specific on. */
  function Specificity(p: PatternKind): nat {
    match p
    case Parallel => 0
    case Sequential => 1
    case Swarm => 2
    case Graph => 3
  }

  /** The inferred pattern is the most specific one that fits. */
  lemma {:induction false} InferredIsMostSpecific(stages: seq<StageSpec>, edges: seq<PlanEdge>, p: PatternKind)
    requires DistinctIds(stages) && EndpointsKnown(IdsOf(stages), edges)
    ensures Inferred(stages, edges) == p <==>
              && PatternFits(p, stages, edges)
              && forall q: PatternKind | Specificity(q) < Specificity(p) :: !PatternFits(q, stages, edges)
  {
    InferredFits(stages, edges);
    assert Specificity(Parallel) < Specificity(Sequential) < Specificity(Swarm) < Specificity(Graph);
  }

  // ---------------------------------------------------------------- sequential plans

  function GraphOf(stages: seq<StageSpec>, edges: seq<PlanEdge>): Digraph {
    Digraph(IdsOf(stages), map n | n in IdsOf(stages) :: SuccessorsIn(edges, n))
  }

  function SuccessorsIn(edges: seq<PlanEdge>, n: NodeId): set<NodeId> {
    set e | e in edges && e.from == n :: e.to
  }

  lemma {:induction false} EdgesOfGraph(stages: seq<StageSpec>, edges: seq<PlanEdge>, u: NodeId, v: NodeId)
    requires EndpointsKnown(IdsOf(stages), edges)
    ensures Edge(GraphOf(stages, edges), u, v) <==> PlanEdge(u, v) in edges
  {
    if PlanEdge(u, v) in edges {
      assert v in SuccessorsIn(edges, u);
    }
  }

  lemma {:induction false} GraphIsClosed(stages: seq<StageSpec>, edges: seq<PlanEdge>)
    requires EndpointsKnown(IdsOf(stages), edges)
    ensures Closed(GraphOf(stages, edges))
  {
    forall u, v | Edge(GraphOf(stages, edges), u, v) ensures u in IdsOf(stages) && v in IdsOf(stages) {
      EdgesOfGraph(stages, edges, u, v);
    }
  }

  lemma {:induction false} InDegPositive(edges: seq<PlanEdge>, n: NodeId)
    ensures InDeg(edges, n) > 0 <==> exists e :: e in edges && e.to == n
    decreases |edges|
  {
    if edges != [] {
      var front, e := edges[..|edges| - 1], edges[|edges| - 1];
      InDegPositive(front, n);
      assert edges == front + [e];
      assert forall f :: f in edges <==> f in front || f == e;
    }
  }

  /** Two different successors make an out-degree of at least two. */
  lemma {:induction false} TwoSuccessors(edges: seq<PlanEdge>, n: NodeId, v: NodeId, w: NodeId)
    requires PlanEdge(n, v) in edges
    ensures OutDeg(edges, n) >= 1
    ensures PlanEdge(n, w) in edges && v != w ==> OutDeg(edges, n) >= 2
    decreases |edges|
  {
    var front, e := edges[..|edges| - 1], edges[|edges| - 1];
    assert edges == front + [e];
    assert forall f :: f in edges <==> f in front || f == e;
    if PlanEdge(n, v) in front {
      TwoSuccessors(front, n, v, w);
    } else if PlanEdge(n, w) in front {
      TwoSuccessors(front, n, w, v);
    }
  }

  /** Every wave is one node, and consecutive waves are joined by an edge. */
  ghost predicate OnePath(edges: seq<PlanEdge>, ws: seq<seq<NodeId>>) {
    && (forall j | 0 <= j < |ws| :: |ws[j]| == 1)
    && forall j | 0 < j < |ws| :: PlanEdge(ws[j - 1][0], ws[j][0]) in edges
  }

  lemma {:induction false} PredsComeEarlier(g: Digraph, ws: seq<seq<NodeId>>, j: nat, u: NodeId, n: NodeId)
    requires IsLevelling(g, {}, ws) && At(ws, j, n) && Edge(g, u, n)
    ensures Earlier(ws, j, u) && j > 0
  {
  }

  lemma {:induction false} FirstWaveIsRoots(stages: seq<StageSpec>, edges: seq<PlanEdge>, ws: seq<seq<NodeId>>,
                                            n: NodeId)
    requires EndpointsKnown(IdsOf(stages), edges) && IsLevelling(GraphOf(stages, edges), {}, ws)
    requires At(ws, 0, n)
    ensures n in Roots(IdsOf(stages), edges)
  {
    InDegPositive(edges, n);
    if e :| e in edges && e.to == n {
      EdgesOfGraph(stages, edges, e.from, n);
      assert e == PlanEdge(e.from, n);
      PredsComeEarlier(GraphOf(stages, edges), ws, 0, e.from, n);
    }
  }

  lemma {:induction false} PredOneWaveEarlier(g: Digraph, ws: seq<seq<NodeId>>, j: nat, n: NodeId) returns (u: NodeId)
    requires IsLevelling(g, {}, ws) && 0 < j < |ws| && n in ws[j]
    ensures u in ws[j - 1] && Edge(g, u, n)
  {
    assert At(ws, j, n);
    assert HasPredIn(g, ws[j - 1], n);
    u :| u in ws[j - 1] && Edge(g, u, n);
  }

  lemma {:induction false} LaterWaveFollows(stages: seq<StageSpec>, edges: seq<PlanEdge>, ws: seq<seq<NodeId>>, j: nat,
                                            n: NodeId)
    requires EndpointsKnown(IdsOf(stages), edges) && IsLevelling(GraphOf(stages, edges), {}, ws)
    requires 0 < j < |ws| && |ws[j - 1]| == 1 && n in ws[j]
    ensures PlanEdge(ws[j - 1][0], n) in edges
  {
    var u := PredOneWaveEarlier(GraphOf(stages, edges), ws, j, n);
    EdgesOfGraph(stages, edges, u, n);
  }

  lemma {:induction false} WaveIsSingle(stages: seq<StageSpec>, edges: seq<PlanEdge>, ws: seq<seq<NodeId>>, j: nat)
    requires PatternFits(Sequential, stages, edges) && IsLevelling(GraphOf(stages, edges), {}, ws)
    requires j < |ws|
    ensures |ws[j]| == 1
    decreases j
  {
    assert ws[j] != [] && Distinct(ws[j]);
    if j > 0 {
      WaveIsSingle(stages, edges, ws, j - 1);
    }
    if |ws[j]| > 1 {
      var v, w := ws[j][0], ws[j][1];
      if j == 0 {
        FirstWaveIsRoots(stages, edges, ws, v);
        FirstWaveIsRoots(stages, edges, ws, w);
        TwoElements(Roots(IdsOf(stages), edges), v, w);
      } else {
        LaterWaveFollows(stages, edges, ws, j, v);
        LaterWaveFollows(stages, edges, ws, j, w);
        var u := ws[j - 1][0];
        assert u in IdsOf(stages);
        TwoSuccessors(edges, u, v, w);
      }
    }
  }

  lemma {:induction false} TwoElements(s: set<NodeId>, v: NodeId, w: NodeId)
    requires v in s && w in s && v != w
    ensures |s| >= 2
  {
    assert s == {v} + (s - {v});
    assert s - {v} == {w} + (s - {v} - {w});
  }

  /** A sequential plan that has waves at all is one path over all stages, one stage a wave. */
  lemma {:induction false} SequentialIsOnePath(stages: seq<StageSpec>, edges: seq<PlanEdge>, ws: seq<seq<NodeId>>)
    requires PatternFits(Sequential, stages, edges) && IsLevelling(GraphOf(stages, edges), {}, ws)
    ensures OnePath(edges, ws)
  {
    forall j | 0 <= j < |ws| ensures |ws[j]| == 1 {
      WaveIsSingle(stages, edges, ws, j);
    }
    forall j | 0 < j < |ws| ensures PlanEdge(ws[j - 1][0], ws[j][0]) in edges {
      LaterWaveFollows(stages, edges, ws, j, ws[j][0]);
    }
  }

  /** A plan with waves is parallel exactly when all its stages are in one wave. */
  lemma {:induction false} ParallelIsOneWave(stages: seq<StageSpec>, edges: seq<PlanEdge>, ws: seq<seq<NodeId>>)
    requires EndpointsKnown(IdsOf(stages), edges) && IsLevelling(GraphOf(stages, edges), {}, ws)
    ensures PatternFits(Parallel, stages, edges) <==> |ws| <= 1
  {
    if |ws| > 1 {
      assert ws[1] != [];
      var u := PredOneWaveEarlier(GraphOf(stages, edges), ws, 1, ws[1][0]);
      EdgesOfGraph(stages, edges, u, ws[1][0]);
    }
    if edges != [] {
      var e := edges[0];
      assert e in edges;
      EdgesOfGraph(stages, edges, e.from, e.to);
      assert e == PlanEdge(e.from, e.to);
      PredsComeEarlier(GraphOf(stages, edges), ws, WaveIndex(ws, e.to), e.from, e.to);
    }
  }

  /** The same test lets cycles beside a path pass; only the waves rule them out. */
  lemma {:induction false} SequentialTestAdmitsCycles(a: StageSpec, b: StageSpec)
    requires a.id != b.id
    ensures var edges := [PlanEdge(b.id, b.id)];
            PatternFits(Sequential, [a, b], edges) && IsCycle(GraphOf([a, b], edges), [b.id])
  {
    var edges := [PlanEdge(b.id, b.id)];
    var stages := [a, b];
    assert IdsOf(stages) == {a.id, b.id} by {
      assert stages[0] == a && stages[1] == b;
    }
    assert edges == [] + [PlanEdge(b.id, b.id)];
    DegreeSnoc([], PlanEdge(b.id, b.id), a.id);
    DegreeSnoc([], PlanEdge(b.id, b.id), b.id);
    assert InDeg(edges, a.id) == 0 && InDeg(edges, b.id) == 1 && OutDeg(edges, a.id) == 0 && OutDeg(edges, b.id) == 1;
    assert Roots(IdsOf(stages), edges) == {a.id};
    EdgesOfGraph(stages, edges, b.id, b.id);
    assert SetOf([b.id]) == {b.id};
  }
}
