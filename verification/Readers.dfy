/**
 * Readers of a recorded trace: commit markers (hesmos/src/cmd/trace.rs) and the structure
 * projection with its comparison (crates/hesmos-trace/src/query.rs). An event's sequence
 * number is its place in the trace.
 */
module Readers {
  import opened Core
  import opened Domain

  // ---------------------------------------------------------------- final gate passes

  /** The pending pass, and the passes already assigned to a boundary. */
  datatype PassReader = PassReader(last: Option<nat>, found: seq<nat>)

  function ReadPass(p: PassReader, e: Event, seqNo: nat): PassReader {
    match e
    case GatePass(_, _, _) => p.(last := Some(seqNo))
    case GateFail(_, _, _, _, _, _) => p.(last := None)
    case NodeStop(_, _, _, _) => Flush(p)
    case SessionClose(_, _) => Flush(p)
    case _ => p
  }

  function Flush(p: PassReader): PassReader {
    if p.last.Some? then PassReader(None, p.found + [p.last.value]) else p
  }

  function ReadPasses(es: seq<Event>): PassReader {
    if es == [] then PassReader(None, []) else ReadPass(ReadPasses(es[..|es| - 1]), es[|es| - 1], |es| - 1)
  }

  /** The sequence number of each boundary's final gate pass, in event order. */
  function BoundaryFinalPasses(es: seq<Event>): seq<nat> {
    Flush(ReadPasses(es)).found
  }

  method FindBoundaryFinalPasses(es: seq<Event>) returns (found: seq<nat>)
    ensures found == BoundaryFinalPasses(es)
  {
    found := [];
    var last: Option<nat> := None;
    var i := 0;
    while i < |es|
      invariant 0 <= i <= |es|
      invariant PassReader(last, found) == ReadPasses(es[..i])
    {
      assert es[..i + 1][..i] == es[..i];
      match es[i] {
        case GatePass(_, _, _) => last := Some(i);
        case GateFail(_, _, _, _, _, _) => last := None;
        case NodeStop(_, _, _, _) =>
          if last.Some? {
            found, last := found + [last.value], None;
          }
        case SessionClose(_, _) =>
          if last.Some? {
            found, last := found + [last.value], None;
          }
        case _ =>
      }
      i := i + 1;
    }
    assert es[..i] == es;
    if last.Some? {
      found := found + [last.value];
    }
  }

  lemma {:induction false} ReadPassesSnoc(es: seq<Event>, e: Event)
    ensures ReadPasses(es + [e]) == ReadPass(ReadPasses(es), e, |es|)
  {
    assert (es + [e])[..|es|] == es;
  }

  /** A pending pass is a place of the trace. */
  lemma {:induction false} PendingIsPlace(es: seq<Event>)
    ensures ReadPasses(es).last.Some? ==> ReadPasses(es).last.value < |es|
    decreases |es|
  {
    if es != [] {
      PendingIsPlace(es[..|es| - 1]);
    }
  }

  /** What a reader has found it keeps. */
  lemma {:induction false} FoundOnlyGrows(es: seq<Event>, es': seq<Event>)
    requires es <= es'
    ensures ReadPasses(es).found <= ReadPasses(es').found
    decreases |es'|
  {
    if es != es' {
      FoundOnlyGrows(es, es'[..|es'| - 1]);
    }
  }

  function Zip(xs: seq<nat>, ys: seq<nat>): seq<(nat, nat)> {
    if xs == [] || ys == [] then [] else [(xs[0], ys[0])] + Zip(xs[1..], ys[1..])
  }

  /** Pairs of final gate pass and commit number: surplus candidates fall away. */
  function CommitMarkers(es: seq<Event>, commitSeqs: seq<nat>): seq<(nat, nat)> {
    Zip(BoundaryFinalPasses(es), commitSeqs)
  }

  lemma {:induction false} ZipAt(xs: seq<nat>, ys: seq<nat>)
    ensures |Zip(xs, ys)| == if |xs| <= |ys| then |xs| else |ys|
    ensures forall i | 0 <= i < |Zip(xs, ys)| :: Zip(xs, ys)[i] == (xs[i], ys[i])
    decreases |xs|
  {
    if xs != [] && ys != [] {
      ZipAt(xs[1..], ys[1..]);
    }
  }

  // ---------------------------------------------------------------- structure projection

  datatype NodeStep = NodeStep(node: NodeId, wave: nat)

  datatype GateStep = PassStep(node: NodeId, gateId: Id) | FailStep(node: NodeId, gateId: Id, reason: ReasonCode,
                                                                    attemptsLeft: Option<nat>)

  datatype Structure = Structure(nodes: seq<NodeStep>, gates: seq<GateStep>)

  function NodeStepsOf(e: Event): seq<NodeStep> {
    match e
    case NodeStart(n, _, w) => [NodeStep(n, w)]
    case _ => []
  }

  function GateStepsOf(e: Event): seq<GateStep> {
    match e
    case GatePass(n, id, _) => [PassStep(n, id)]
    case GateFail(n, id, reason, _, left, _) => [FailStep(n, id, reason, left)]
    case _ => []
  }

  /** Node starts in order. */
  function NodePath(es: seq<Event>): seq<NodeStep> {
    if es == [] then [] else NodePath(es[..|es| - 1]) + NodeStepsOf(es[|es| - 1])
  }

  function GatePathOf(es: seq<Event>): seq<GateStep> {
    if es == [] then [] else GatePathOf(es[..|es| - 1]) + GateStepsOf(es[|es| - 1])
  }

  function ProjectStructure(es: seq<Event>): Structure {
    Structure(NodePath(es), GatePathOf(es))
  }

  method Project(es: seq<Event>) returns (s: Structure)
    ensures s == ProjectStructure(es)
  {
    var nodes, gates := [], [];
    var i := 0;
    while i < |es|
      invariant 0 <= i <= |es|
      invariant nodes == NodePath(es[..i]) && gates == GatePathOf(es[..i])
    {
      assert es[..i + 1][..i] == es[..i];
      nodes := nodes + NodeStepsOf(es[i]);
      gates := gates + GateStepsOf(es[i]);
      i := i + 1;
    }
    assert es[..i] == es;
    s := Structure(nodes, gates);
  }

  lemma {:induction false} NodePathSnoc(es: seq<Event>, e: Event)
    ensures NodePath(es + [e]) == NodePath(es) + NodeStepsOf(e)
  {
    assert (es + [e])[..|es|] == es;
  }

  // ---------------------------------------------------------------- what a gate path tells

  predicate IsJudgment(e: Event) {
    e.GatePass? || e.GateFail?
  }

  /** The gate events of a trace, in order. */
  function Judgments(es: seq<Event>): (js: seq<Event>)
    ensures forall i | 0 <= i < |js| :: IsJudgment(js[i])
  {
    if es == [] then [] else
      var js := Judgments(es[..|es| - 1]);
      if IsJudgment(es[|es| - 1]) then js + [es[|es| - 1]] else js
  }

  /**
   * The step names the event's node and gate, and is a fail with its reason and retries left
   * exactly for a gate.fail.
   */
  ghost predicate StepTells(e: Event, s: GateStep)
    requires IsJudgment(e)
  {
    && s.node == e.node && s.gateId == e.gateId
    && (s.PassStep? <==> e.GatePass?)
    && (e.GateFail? ==> s.FailStep? && s.reason == e.reason && s.attemptsLeft == e.attemptsLeft)
  }

  /** The gate path has one step per gate event, in order, and each tells its event. */
  lemma {:induction false} GatePathTells(es: seq<Event>)
    ensures |GatePathOf(es)| == |Judgments(es)|
    ensures forall i | 0 <= i < |GatePathOf(es)| :: StepTells(Judgments(es)[i], GatePathOf(es)[i])
    decreases |es|
  {
    if es != [] {
      GatePathTells(es[..|es| - 1]);
    }
  }

  /** Two gate events agree on kind, node, gate, reason and retries left. */
  ghost predicate SameJudgment(e: Event, f: Event)
    requires IsJudgment(e) && IsJudgment(f)
  {
    && e.node == f.node && e.gateId == f.gateId
    && (e.GatePass? <==> f.GatePass?)
    && (e.GateFail? && f.GateFail? ==> e.reason == f.reason && e.attemptsLeft == f.attemptsLeft)
  }

  lemma {:induction false} SameStep(e: Event, f: Event, s: GateStep, t: GateStep)
    requires IsJudgment(e) && IsJudgment(f) && StepTells(e, s) && StepTells(f, t)
    ensures s == t <==> SameJudgment(e, f)
  {
  }

  /** Two traces have one gate path exactly when their gate events agree, in order. */
  lemma {:induction false} SameGatePath(es: seq<Event>, fs: seq<Event>)
    ensures GatePathOf(es) == GatePathOf(fs) <==>
              && |Judgments(es)| == |Judgments(fs)|
              && forall i | 0 <= i < |Judgments(es)| :: SameJudgment(Judgments(es)[i], Judgments(fs)[i])
  {
    GatePathTells(es);
    GatePathTells(fs);
    if |Judgments(es)| == |Judgments(fs)| {
      forall i | 0 <= i < |Judgments(es)|
        ensures GatePathOf(es)[i] == GatePathOf(fs)[i] <==> SameJudgment(Judgments(es)[i], Judgments(fs)[i])
      {
        SameStep(Judgments(es)[i], Judgments(fs)[i], GatePathOf(es)[i], GatePathOf(fs)[i]);
      }
    }
  }

  // ---------------------------------------------------------------- structure comparison

  const MAX_REPORTED_MISMATCHES: nat := 8

  datatype Mismatch =
    | NodeCount(expectedLen: nat, actualLen: nat)
    | NodeDiffers(index: nat, expectedNode: NodeStep, actualNode: NodeStep)
    | GateCount(expectedLen: nat, actualLen: nat)
    | GateDiffers(index: nat, expectedGate: GateStep, actualGate: GateStep)

  datatype Comparison = Comparison(matches: bool, mismatches: seq<Mismatch>)

  /** Every difference, counts first, then element by element, nodes before gates. */
  function Differences(e: Structure, a: Structure): seq<Mismatch> {
    (if |e.nodes| != |a.nodes| then [NodeCount(|e.nodes|, |a.nodes|)] else [])
    + NodeDifferences(e.nodes, a.nodes, 0)
    + (if |e.gates| != |a.gates| then [GateCount(|e.gates|, |a.gates|)] else [])
    + GateDifferences(e.gates, a.gates, 0)
  }

  function NodeDifferences(e: seq<NodeStep>, a: seq<NodeStep>, i: nat): seq<Mismatch>
    decreases |e| - i
  {
    if i >= |e| || i >= |a| then []
    else (if e[i] != a[i] then [NodeDiffers(i, e[i], a[i])] else []) + NodeDifferences(e, a, i + 1)
  }

  function GateDifferences(e: seq<GateStep>, a: seq<GateStep>, i: nat): seq<Mismatch>
    decreases |e| - i
  {
    if i >= |e| || i >= |a| then []
    else (if e[i] != a[i] then [GateDiffers(i, e[i], a[i])] else []) + GateDifferences(e, a, i + 1)
  }

  method CompareStructure(e: Structure, a: Structure) returns (c: Comparison)
    ensures c.matches <==> e == a
    ensures c.mismatches == if |Differences(e, a)| <= MAX_REPORTED_MISMATCHES then Differences(e, a)
            else Differences(e, a)[..MAX_REPORTED_MISMATCHES]
  {
    var ms := [];
    if |e.nodes| != |a.nodes| {
      ms := [NodeCount(|e.nodes|, |a.nodes|)];
    }
    ghost var before := ms;
    var i := 0;
    while i < |e.nodes| && i < |a.nodes|
      invariant ms + NodeDifferences(e.nodes, a.nodes, i) == before + NodeDifferences(e.nodes, a.nodes, 0)
    {
      if e.nodes[i] != a.nodes[i] {
        ms := ms + [NodeDiffers(i, e.nodes[i], a.nodes[i])];
      }
      i := i + 1;
    }
    assert ms == before + NodeDifferences(e.nodes, a.nodes, 0);
    if |e.gates| != |a.gates| {
      ms := ms + [GateCount(|e.gates|, |a.gates|)];
    }
    before := ms;
    i := 0;
    while i < |e.gates| && i < |a.gates|
      invariant ms + GateDifferences(e.gates, a.gates, i) == before + GateDifferences(e.gates, a.gates, 0)
    {
      if e.gates[i] != a.gates[i] {
        ms := ms + [GateDiffers(i, e.gates[i], a.gates[i])];
      }
      i := i + 1;
    }
    assert ms == before + GateDifferences(e.gates, a.gates, 0);
    assert ms == Differences(e, a);
    NoDifferencesIffEqual(e, a);
    if |ms| > MAX_REPORTED_MISMATCHES {
      ms := ms[..MAX_REPORTED_MISMATCHES];
    }
    c := Comparison(ms == [], ms);
  }

  lemma {:induction false} NoNodeDifferences(e: seq<NodeStep>, a: seq<NodeStep>, i: nat)
    requires |e| == |a|
    ensures NodeDifferences(e, a, i) == [] <==> forall k | i <= k < |e| :: e[k] == a[k]
    decreases |e| - i
  {
    if i < |e| {
      NoNodeDifferences(e, a, i + 1);
    }
  }

  lemma {:induction false} NoGateDifferences(e: seq<GateStep>, a: seq<GateStep>, i: nat)
    requires |e| == |a|
    ensures GateDifferences(e, a, i) == [] <==> forall k | i <= k < |e| :: e[k] == a[k]
    decreases |e| - i
  {
    if i < |e| {
      NoGateDifferences(e, a, i + 1);
    }
  }

  /** The comparison finds nothing exactly for equal structures. */
  lemma {:induction false} NoDifferencesIffEqual(e: Structure, a: Structure)
    ensures Differences(e, a) == [] <==> e == a
  {
    if |e.nodes| == |a.nodes| && |e.gates| == |a.gates| {
      NoNodeDifferences(e.nodes, a.nodes, 0);
      NoGateDifferences(e.gates, a.gates, 0);
    }
  }

  /** The mismatch is there: the counts differ, or the steps at the index, expected before actual. */
  ghost predicate Mismatched(e: Structure, a: Structure, m: Mismatch) {
    match m
    case NodeCount(x, y) => x == |e.nodes| && y == |a.nodes| && x != y
    case NodeDiffers(i, x, y) => i < |e.nodes| && i < |a.nodes| && x == e.nodes[i] && y == a.nodes[i] && x != y
    case GateCount(x, y) => x == |e.gates| && y == |a.gates| && x != y
    case GateDiffers(i, x, y) => i < |e.gates| && i < |a.gates| && x == e.gates[i] && y == a.gates[i] && x != y
  }

  /** Nodes before gates, counts before steps, steps by index. */
  predicate Before(m: Mismatch, n: Mismatch) {
    match m
    case NodeCount(_, _) => !n.NodeCount?
    case NodeDiffers(i, _, _) => (n.NodeDiffers? && i < n.index) || n.GateCount? || n.GateDiffers?
    case GateCount(_, _) => n.GateDiffers?
    case GateDiffers(i, _, _) => n.GateDiffers? && i < n.index
  }

  ghost predicate Listed(ms: seq<Mismatch>) {
    forall j, k | 0 <= j < k < |ms| :: Before(ms[j], ms[k])
  }

  lemma {:induction false} NodesListed(e: Structure, a: Structure, i: nat)
    ensures forall m :: m in NodeDifferences(e.nodes, a.nodes, i)
               <==> m.NodeDiffers? && i <= m.index && Mismatched(e, a, m)
    ensures Listed(NodeDifferences(e.nodes, a.nodes, i))
    decreases |e.nodes| - i
  {
    if i < |e.nodes| && i < |a.nodes| {
      NodesListed(e, a, i + 1);
      var ms := NodeDifferences(e.nodes, a.nodes, i + 1);
      forall k | 0 <= k < |ms| ensures ms[k].NodeDiffers? && i < ms[k].index {
        assert ms[k] in ms;
      }
    }
  }

  lemma {:induction false} GatesListed(e: Structure, a: Structure, i: nat)
    ensures forall m :: m in GateDifferences(e.gates, a.gates, i)
               <==> m.GateDiffers? && i <= m.index && Mismatched(e, a, m)
    ensures Listed(GateDifferences(e.gates, a.gates, i))
    decreases |e.gates| - i
  {
    if i < |e.gates| && i < |a.gates| {
      GatesListed(e, a, i + 1);
      var ms := GateDifferences(e.gates, a.gates, i + 1);
      forall k | 0 <= k < |ms| ensures ms[k].GateDiffers? && i < ms[k].index {
        assert ms[k] in ms;
      }
    }
  }

  lemma {:induction false} ListedThen(ms: seq<Mismatch>, ns: seq<Mismatch>)
    requires Listed(ms) && Listed(ns) && forall m, n | m in ms && n in ns :: Before(m, n)
    ensures Listed(ms + ns)
  {
    forall j, k | 0 <= j < k < |ms + ns| ensures Before((ms + ns)[j], (ms + ns)[k]) {
      if j < |ms| && k >= |ms| {
        assert ms[j] in ms && ns[k - |ms|] in ns;
      }
    }
  }

  /** The differences are exactly the mismatches there are, each once, in order. */
  lemma {:induction false} DifferencesAreMismatches(e: Structure, a: Structure)
    ensures forall m :: m in Differences(e, a) <==> Mismatched(e, a, m)
    ensures Listed(Differences(e, a))
  {
    NodesListed(e, a, 0);
    GatesListed(e, a, 0);
    var nodeCount := if |e.nodes| != |a.nodes| then [NodeCount(|e.nodes|, |a.nodes|)] else [];
    var gateCount := if |e.gates| != |a.gates| then [GateCount(|e.gates|, |a.gates|)] else [];
    var nodes, gates := NodeDifferences(e.nodes, a.nodes, 0), GateDifferences(e.gates, a.gates, 0);
    ListedThen(nodeCount, nodes);
    ListedThen(nodeCount + nodes, gateCount);
    ListedThen(nodeCount + nodes + gateCount, gates);
  }

  // ---------------------------------------------------------------- metered tokens

  function EventTokens(e: Event): nat {
    match e
    case LlmCall(_, _, _, tokensIn, tokensOut, _) => tokensIn + tokensOut
    case _ => 0
  }

  /** All tokens of the recorded llm calls. */
  function TraceTokens(es: seq<Event>): nat {
    if es == [] then 0 else TraceTokens(es[..|es| - 1]) + EventTokens(es[|es| - 1])
  }

  lemma {:induction false} TraceTokensSnoc(es: seq<Event>, e: Event)
    ensures TraceTokens(es + [e]) == TraceTokens(es) + EventTokens(e)
  {
    assert (es + [e])[..|es|] == es;
  }
}
