/**
 * What a run has committed so far: checkpoint rows, response rows and outputs agree, follow
 * the commit order, and each row's contract is determined by the rows before it.
 */
module RunDurable {
  import opened Core
  import opened Orders
  import opened Domain
  import opened Waves
  import opened Budget
  import opened RunModel
  import opened CommitOrder
  import opened RunRouting
  import opened RunEffects

  /** A session whose waves come from its acyclic plan graph and whose budget is frozen. */
  ghost predicate Compiled(S: Session) {
    && Closed(S.g) && IsLevelling(S.g, {}, S.waves)
    && S.g.nodes == S.stages.Keys
    && Paired(S.budget)
  }

  function Order(S: Session): seq<NodeId> {
    Flatten(S.waves)
  }

  /** The contracts routed into nodes by the first k commits, from their response rows alone. */
  function RoutedUpTo(S: Session, responses: map<nat, CachedExecution>, k: nat): map<NodeId, HandoffContract> {
    if k == 0 then map[]
    else if k <= |Order(S)| && k in responses && Order(S)[k - 1] in S.stages then
      var n := Order(S)[k - 1];
      RouteInto(S, n, S.stages[n], responses[k].envelope, Clamp(responses[k].confidence), Sorted(Succs(S.g, n)),
                RoutedUpTo(S, responses, k - 1))
    else RoutedUpTo(S, responses, k - 1)
  }

  function Lookup(routed: map<NodeId, HandoffContract>, n: NodeId): Option<HandoffContract> {
    if n in routed then Some(routed[n]) else None
  }

  /** Two collections of response rows agree on the first k. */
  ghost predicate AgreeUpTo(a: map<nat, CachedExecution>, b: map<nat, CachedExecution>, k: nat) {
    forall i | 1 <= i <= k :: i in a && i in b && a[i] == b[i]
  }

  lemma {:induction false} RoutedUpToAgrees(S: Session, a: map<nat, CachedExecution>, b: map<nat, CachedExecution>,
                                            k: nat)
    requires AgreeUpTo(a, b, k)
    ensures RoutedUpTo(S, a, k) == RoutedUpTo(S, b, k)
    decreases k
  {
    if k > 0 {
      RoutedUpToAgrees(S, a, b, k - 1);
    }
  }

  /** Row i of the checkpoint table. */
  ghost predicate RowOk(S: Session, d: Durable, i: nat)
    requires i < |d.rows| && i < |Order(S)| && i + 1 in d.responses && Order(S)[i] in d.outputs
  {
    && d.rows[i] == StoredCommit(i + 1, Order(S)[i], d.responses[i + 1].envelope,
                                 Lookup(RoutedUpTo(S, d.responses, i), Order(S)[i]))
    && d.outputs[Order(S)[i]] == d.responses[i + 1].envelope
    && d.responses[i + 1].envelope.from == Order(S)[i]
  }

  ghost predicate DurableOk(S: Session, d: Durable) {
    var k := |d.commits|;
    && k <= |Order(S)| && d.commits == Order(S)[..k]
    && CursorOk(S.waves, d)
    && |d.rows| == k && |d.passes| == k && |d.commitAt| == k
    && (forall i :: i in d.responses <==> 1 <= i <= k)
    && (forall i | 0 <= i < k :: Order(S)[i] in d.outputs && Order(S)[i] in d.origins)
    && d.outputs.Keys == SetOf(d.commits) && d.origins.Keys == SetOf(d.commits)
    && forall i | 0 <= i < k :: RowOk(S, d, i)
  }

  lemma {:induction false} InitDurableOk(S: Session)
    requires Compiled(S)
    ensures DurableOk(S, InitState(S).durable)
  {
    assert Order(S)[..0] == [];
  }

  /** The routing state matches the committed rows. */
  ghost predicate RoutingOk(S: Session, q: Routing, d: Durable) {
    && GuardOk(S, q)
    && q.accepted == AcceptedUpTo(S.g, d.commits)
    && q.routedIn == RoutedUpTo(S, d.responses, |d.commits|)
  }

  lemma {:induction false} ProductFromNode(S: Session, b: Boundary, nextSeq: nat, p: Product)
    requires ProductOk(S, b, nextSeq, p) && b.input.to == b.node
    ensures p.out.from == b.node
  {
  }

  /** The next node of the order, about to commit its product. */
  ghost predicate CommitDue(S: Session, d: Durable, b: Boundary, p: Product) {
    && Compiled(S) && DurableOk(S, d)
    && |d.commits| < |Order(S)| && b.node == Order(S)[|d.commits|]
    && InOrder(S, d, b.node)
    && p.out.from == b.node
    && b.routed == Lookup(RoutedUpTo(S, d.responses, |d.commits|), b.node)
  }

  lemma {:induction false} RowsAgree(S: Session, d: Durable, b: Boundary, p: Product, i: nat)
    requires CommitDue(S, d, b, p) && i <= |d.commits|
    ensures RoutedUpTo(S, CommitDurable(S, d, b, p).responses, i) == RoutedUpTo(S, d.responses, i)
  {
    RoutedUpToAgrees(S, d.responses, CommitDurable(S, d, b, p).responses, i);
  }

  lemma {:induction false} RowStays(S: Session, d: Durable, b: Boundary, p: Product, i: nat)
    requires CommitDue(S, d, b, p) && i < |d.commits|
    ensures var d' := CommitDurable(S, d, b, p);
            Order(S)[i] in d'.outputs && Order(S)[i] in d'.origins && RowOk(S, d', i)
  {
    var d' := CommitDurable(S, d, b, p);
    RowsAgree(S, d, b, p, i);
    OrderDistinct(S.g, S.waves, i, |d.commits|);
    assert RowOk(S, d, i);
    assert d'.rows[i] == d.rows[i];
    assert d'.responses[i + 1] == d.responses[i + 1];
    assert d'.outputs[Order(S)[i]] == d.outputs[Order(S)[i]];
  }

  lemma {:induction false} RowAdded(S: Session, d: Durable, b: Boundary, p: Product)
    requires CommitDue(S, d, b, p)
    ensures var d' := CommitDurable(S, d, b, p);
            Order(S)[|d.commits|] in d'.outputs && Order(S)[|d.commits|] in d'.origins && RowOk(S, d', |d.commits|)
  {
    RowsAgree(S, d, b, p, |d.commits|);
  }

  lemma {:induction false} CommitAddsKey(S: Session, d: Durable, b: Boundary, p: Product, order: seq<NodeId>)
    requires InOrder(S, d, b.node)
    requires |d.commits| < |order| && d.commits == order[..|d.commits|] && b.node == order[|d.commits|]
    requires d.outputs.Keys == SetOf(d.commits) && d.origins.Keys == SetOf(d.commits)
    requires forall i :: i in d.responses <==> 1 <= i <= |d.commits|
    ensures var d' := CommitDurable(S, d, b, p);
            && d'.commits == order[..|d.commits| + 1]
            && d'.outputs.Keys == SetOf(d'.commits) && d'.origins.Keys == SetOf(d'.commits)
            && (forall i :: i in d'.responses <==> 1 <= i <= |d.commits| + 1)
  {
    assert order[..|d.commits| + 1] == order[..|d.commits|] + [order[|d.commits|]];
    SetOfSnoc(d.commits, b.node);
  }

  lemma {:induction false} CommitKeepsKeys(S: Session, d: Durable, b: Boundary, p: Product)
    requires CommitDue(S, d, b, p)
    ensures var d' := CommitDurable(S, d, b, p);
            && d'.commits == Order(S)[..|d.commits| + 1]
            && d'.outputs.Keys == SetOf(d'.commits) && d'.origins.Keys == SetOf(d'.commits)
            && CursorOk(S.waves, d')
            && (forall i :: i in d'.responses <==> 1 <= i <= |d.commits| + 1)
  {
    CommitAddsKey(S, d, b, p, Order(S));
    CursorAdvances(S, d, b, p);
  }

  /** A commit of the next node keeps the rows in step. */
  lemma {:induction false} CommitKeepsDurable(S: Session, d: Durable, b: Boundary, p: Product)
    requires CommitDue(S, d, b, p)
    ensures DurableOk(S, CommitDurable(S, d, b, p))
  {
    var k := |d.commits|;
    var d' := CommitDurable(S, d, b, p);
    CommitKeepsKeys(S, d, b, p);
    forall i | 0 <= i < k + 1 ensures Order(S)[i] in d'.outputs && Order(S)[i] in d'.origins && RowOk(S, d', i) {
      if i < k {
        RowStays(S, d, b, p, i);
      } else {
        RowAdded(S, d, b, p);
      }
    }
  }

  lemma {:induction false} AcceptedSnoc(g: Digraph, order: seq<NodeId>, n: NodeId)
    ensures AcceptedUpTo(g, order + [n]) == AcceptedUpTo(g, order) + EdgesOf(n, Sorted(Succs(g, n)))
  {
    assert (order + [n])[..|order|] == order;
  }

  /** Routing the committed product's edges keeps the routing state in step. */
  lemma {:induction false} CommitKeepsRouting(S: Session, d: Durable, b: Boundary, p: Product, q: Routing, q': Routing)
    requires CommitDue(S, d, b, p) && b.node in S.stages && b.stage == S.stages[b.node]
    requires RoutingOk(S, q, d) && p.confidence == Clamp(ConfidenceOf(p.output))
    requires GuardOk(S, q')
    requires q'.accepted == q.accepted + EdgesOf(b.node, Sorted(Succs(S.g, b.node)))
    requires q'.routedIn == RouteInto(S, b.node, b.stage, p.out, p.confidence, Sorted(Succs(S.g, b.node)), q.routedIn)
    ensures RoutingOk(S, q', CommitDurable(S, d, b, p))
  {
    AcceptedSnoc(S.g, d.commits, b.node);
    RowsAgree(S, d, b, p, |d.commits|);
  }

  // ---------------------------------------------------------------- ordinals

  lemma {:induction false} OrdinalAt(order: seq<NodeId>, k: nat)
    requires k < |order| && forall i | 0 <= i < k :: order[i] != order[k]
    ensures Ordinal(order, order[k]) == k + 1
    decreases k
  {
    if k > 0 {
      assert order[0] != order[k];
      forall i | 0 <= i < k - 1 ensures order[1..][i] != order[1..][k - 1] {
        assert order[i + 1] != order[k];
      }
      OrdinalAt(order[1..], k - 1);
    }
  }

  /** The ordinal that envelope numbers derive from is the commit number. */
  lemma {:induction false} OrdinalIsPlace(S: Session, k: nat)
    requires Compiled(S) && k < |Order(S)|
    ensures Ordinal(Flatten(S.waves), Order(S)[k]) == k + 1
  {
    forall i | 0 <= i < k ensures Order(S)[i] != Order(S)[k] {
      OrderDistinct(S.g, S.waves, i, k);
    }
    OrdinalAt(Flatten(S.waves), k);
  }
}
