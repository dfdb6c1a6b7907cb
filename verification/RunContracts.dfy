/**
 * What a node receives in a run: the payloads of all its predecessors, and the contract of the
 * predecessor that committed last.
 */
module RunContracts {
  import opened Core
  import opened Orders
  import opened Domain
  import opened Waves
  import opened RunModel
  import opened CommitOrder
  import opened RunRouting
  import opened RunDurable
  import opened RunTaint
  import opened RunInvariant
  import opened RunOutcomes

  // ---------------------------------------------------------------- contracts

  lemma {:induction false} RouteIntoLookup(S: Session, n: NodeId, stage: StageSpec, out: Envelope, confidence: real,
                                           succs: seq<NodeId>, into: map<NodeId, HandoffContract>, m: NodeId)
    ensures Lookup(RouteInto(S, n, stage, out, confidence, succs, into), m)
            == if m in succs then Some(BuildContract(S, n, m, stage, out, confidence)) else Lookup(into, m)
    decreases |succs|
  {
    if succs != [] {
      RouteIntoLookup(S, n, stage, out, confidence, succs[1..],
                      into[succs[0] := BuildContract(S, n, succs[0], stage, out, confidence)], m);
    }
  }

  /** The last of the first k nodes with an edge to n. */
  function LastPred(S: Session, n: NodeId, k: nat): (i: Option<nat>)
    requires k <= |Order(S)|
    ensures i.Some? ==> i.value < k && Edge(S.g, Order(S)[i.value], n)
    ensures i.None? ==> forall j | 0 <= j < k :: !Edge(S.g, Order(S)[j], n)
    ensures i.Some? ==> forall j | i.value < j < k :: !Edge(S.g, Order(S)[j], n)
  {
    if k == 0 then None else if Edge(S.g, Order(S)[k - 1], n) then Some(k - 1) else LastPred(S, n, k - 1)
  }

  /** The handoff from the i-th node, from its committed row. */
  function HandoffFrom(S: Session, responses: map<nat, CachedExecution>, i: nat, n: NodeId): HandoffContract
    requires i < |Order(S)| && i + 1 in responses && Order(S)[i] in S.stages
  {
    BuildContract(S, Order(S)[i], n, S.stages[Order(S)[i]], responses[i + 1].envelope,
                  Clamp(responses[i + 1].confidence))
  }

  /** Routing the k-th node's edges settles its successors and leaves the others. */
  lemma {:induction false} RoutedStep(S: Session, responses: map<nat, CachedExecution>, k: nat, n: NodeId)
    requires k < |Order(S)| && k + 1 in responses && Order(S)[k] in S.stages
    ensures Lookup(RoutedUpTo(S, responses, k + 1), n)
            == if Edge(S.g, Order(S)[k], n) then Some(HandoffFrom(S, responses, k, n))
               else Lookup(RoutedUpTo(S, responses, k), n)
  {
    var u := Order(S)[k];
    var row := responses[k + 1];
    SortedSpec(Succs(S.g, u));
    RouteIntoLookup(S, u, S.stages[u], row.envelope, Clamp(row.confidence), Sorted(Succs(S.g, u)),
                    RoutedUpTo(S, responses, k), n);
    assert n in Sorted(Succs(S.g, u)) <==> Edge(S.g, u, n);
  }

  lemma {:induction false} RoutedFromLast(S: Session, responses: map<nat, CachedExecution>, k: nat, n: NodeId)
    requires k <= |Order(S)| && (forall i | 1 <= i <= k :: i in responses) && forall i | 0 <= i < k ::
             Order(S)[i] in S.stages
    ensures Lookup(RoutedUpTo(S, responses, k), n)
            == match LastPred(S, n, k)
               case None => None
               case Some(i) => Some(HandoffFrom(S, responses, i, n))
    decreases k
  {
    if k > 0 {
      RoutedFromLast(S, responses, k - 1, n);
      RoutedStep(S, responses, k - 1, n);
    }
  }

  /** A node has no predecessor among those before it exactly when it has none at all. */
  lemma {:induction false} RootHasNoPred(S: Session, k: nat)
    requires Compiled(S) && k < |Order(S)|
    ensures LastPred(S, Order(S)[k], k).None? <==> Preds(S.g, Order(S)[k]) == {}
  {
    var n := Order(S)[k];
    if LastPred(S, n, k).None? && Preds(S.g, n) != {} {
      var u :| u in Preds(S.g, n);
      assert Edge(S.g, u, n);
      var m := OrderMember(S.g, S.waves, u);
      EdgesGoForward(S.g, S.waves, m, k);
      assert false;
    }
    if LastPred(S, n, k).Some? {
      assert Order(S)[LastPred(S, n, k).value] in Preds(S.g, n);
    }
  }

  /** A confidence brought into the unit interval: unchanged inside it, the nearer end outside. */
  ghost predicate InUnit(x: real, c: real) {
    && 0.0 <= c <= 1.0
    && (0.0 <= x <= 1.0 ==> c == x) && (x < 0.0 ==> c == 0.0) && (x > 1.0 ==> c == 1.0)
  }

  /**
   * What a handoff from u to n holds: the session's goal, the receiver's criteria and
   * permissions, and of the sender its row's payload under its input schema and its confidence.
   */
  ghost predicate HandoffTells(S: Session, u: NodeId, row: CachedExecution, n: NodeId, c: HandoffContract) {
    && u in S.stages && n in S.stages && c.fromNode == u && c.toNode == Some(n)
    && c.goalOriginal == S.task == c.snapshot.goalOriginal && c.invariants == [HANDOFF_INVARIANT]
    && c.doneCriteria == Some(S.stages[n].doneCriteria)
    && c.capTools == S.stages[n].profile.tools && c.capNetwork == S.stages[n].profile.network
    && c.confidence.Some? && InUnit(row.confidence, c.confidence.value)
    && c.snapshot.nodeInput == Payload(S.stages[u].inputSchema, row.envelope.payload.json)
    && c.artifacts.None? && c.assumptions == Some([])
  }

  /** What a node without predecessors holds itself to: its own criteria and no permissions, claims or confidence. */
  ghost predicate OwnContract(S: Session, n: NodeId, c: HandoffContract) {
    && n in S.stages && c.fromNode == n && c.toNode == Some(n)
    && c.doneCriteria == Some(S.stages[n].doneCriteria)
    && c.goalOriginal == "" && c.invariants == [] && c.capTools == {} && c.capNetwork == {}
    && c.confidence.None? && c.assumptions.None?
  }

  /**
   * The contract routed into the i-th node: none exactly for a root; otherwise the handoff of the
   * predecessor that committed last, written from that predecessor's own row.
   */
  ghost predicate RoutedExact(S: Session, d: Durable, i: nat, routed: Option<HandoffContract>)
    requires i < |Order(S)|
  {
    var n := Order(S)[i];
    && (routed.None? <==> Preds(S.g, n) == {})
    && (routed.Some? ==>
          exists j: nat :: j < i && j + 1 in d.responses && Edge(S.g, Order(S)[j], n)
                           && HandoffTells(S, Order(S)[j], d.responses[j + 1], n, routed.value)
                           && forall k | j < k < i :: !Edge(S.g, Order(S)[k], n))
  }

  lemma {:induction false} HandoffIsTold(S: Session, responses: map<nat, CachedExecution>, j: nat, n: NodeId)
    requires j < |Order(S)| && j + 1 in responses && Order(S)[j] in S.stages && n in S.stages
    ensures HandoffTells(S, Order(S)[j], responses[j + 1], n, HandoffFrom(S, responses, j, n))
  {
  }

  lemma {:induction false} RoutedIsExact(S: Session, d: Durable, i: nat)
    requires Compiled(S) && DurableOk(S, d) && i <= |d.commits| && i < |Order(S)|
    ensures RoutedExact(S, d, i, Lookup(RoutedUpTo(S, d.responses, i), Order(S)[i]))
  {
    var n := Order(S)[i];
    forall j | 0 <= j <= i ensures Order(S)[j] in S.stages {
      OrderInside(S.g, S.waves, j);
    }
    RoutedFromLast(S, d.responses, i, n);
    RootHasNoPred(S, i);
    if LastPred(S, n, i).Some? {
      HandoffIsTold(S, d.responses, LastPred(S, n, i).value, n);
    }
  }

  lemma {:induction false} ContractOfRow(S: Session, d: Durable, i: nat)
    requires Compiled(S) && DurableOk(S, d) && i < |d.rows|
    ensures RoutedExact(S, d, i, d.rows[i].contract)
  {
    RoutedIsExact(S, d, i);
    assert RowOk(S, d, i);
  }

  /** Every checkpoint row of every run carries exactly its contract. */
  lemma {:induction false} RowsCarryTheirContracts(S: Session)
    requires Compiled(S)
    ensures var d := Run(S).0.durable;
            |d.rows| <= |Order(S)| && forall i: nat | i < |d.rows| :: RoutedExact(S, d, i, d.rows[i].contract)
  {
    var s := RunAccount(S);
    forall i: nat | i < |s.durable.rows|
      ensures RoutedExact(S, s.durable, i, s.durable.rows[i].contract)
    {
      ContractOfRow(S, s.durable, i);
    }
  }

  // ---------------------------------------------------------------- inputs

  lemma {:induction false} InputOfCommitted(S: Session, outputs: map<NodeId, Envelope>, n: NodeId, stage: StageSpec)
    requires Preds(S.g, n) <= outputs.Keys
    ensures BuildInput(S, outputs, n, stage).payload.json
            == TaskInput(S.task, map p | p in Preds(S.g, n) :: outputs[p].payload)
  {
    assert (map p | p in Preds(S.g, n) && p in outputs :: outputs[p].payload)
           == map p | p in Preds(S.g, n) :: outputs[p].payload;
  }

  lemma {:induction false} PredsPresent(S: Session, d: Durable)
    requires Compiled(S) && DurableOk(S, d) && |d.commits| < |Order(S)|
    ensures Preds(S.g, Order(S)[|d.commits|]) <= d.outputs.Keys
  {
    forall u | u in Preds(S.g, Order(S)[|d.commits|]) ensures u in d.outputs {
      PredsCommitted(S, d, u);
    }
  }

  /**
   * When a node is due, its input envelope is a task addressed to it from its first predecessor,
   * or from itself, carries its commit number and its input schema, and holds the payload of
   * every predecessor's committed envelope and nothing else.
   */
  lemma {:induction false} DueInputIsComplete(S: Session, s: RunState)
    requires Due(S, s)
    ensures NodeDue(S, s) in S.stages
    ensures var n := NodeDue(S, s); var e := BuildInput(S, s.durable.outputs, n, S.stages[n]);
            && Preds(S.g, n) <= s.durable.outputs.Keys
            && e.to == n && e.id == |s.durable.commits| + 1 == e.correlationId && e.kind == Task
            && (if Preds(S.g, n) == {} then e.from == n else IsMin(e.from, Preds(S.g, n)))
            && e.payload.schemaId == S.stages[n].inputSchema
            && e.payload.json == TaskInput(S.task, map p | p in Preds(S.g, n) :: s.durable.outputs[p].payload)
  {
    var n := NodeDue(S, s);
    OrderInside(S.g, S.waves, |s.durable.commits|);
    PredsPresent(S, s.durable);
    InputOfCommitted(S, s.durable.outputs, n, S.stages[n]);
    OrdinalIsPlace(S, |s.durable.commits|);
  }

  lemma {:induction false} BoundaryContract(S: Session, n: NodeId, routed: Option<HandoffContract>,
                                            c: HandoffContract)
    requires n in S.stages
    requires c == if routed.Some? then routed.value else SyntheticContract(n, S.stages[n])
    ensures routed.None? ==> OwnContract(S, n, c)
  {
  }

  /**
   * When a node is due, its gates are shown the handoff of the predecessor that committed last,
   * or for a root its own declaration, and the profile of whoever wrote that contract.
   */
  lemma {:induction false} DueContractIsComplete(S: Session, s: RunState)
    requires Due(S, s)
    ensures NodeDue(S, s) in S.stages
    ensures var n := NodeDue(S, s); var b := MakeBoundary(S, s, n, S.stages[n], WaveDue(S, s));
            && RoutedExact(S, s.durable, |s.durable.commits|, b.routed)
            && (if Preds(S.g, n) == {} then OwnContract(S, n, b.contract) else b.routed == Some(b.contract))
            && b.contract.fromNode in S.stages && b.grantor == Some(S.stages[b.contract.fromNode].profile)
  {
    var n := NodeDue(S, s);
    OrderInside(S.g, S.waves, |s.durable.commits|);
    var b := MakeBoundary(S, s, n, S.stages[n], WaveDue(S, s));
    RoutedIsExact(S, s.durable, |s.durable.commits|);
    BoundaryContract(S, n, b.routed, b.contract);
  }
}
