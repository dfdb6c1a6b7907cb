/**
 * Taint (crates/hesmos-core/src/envelope.rs, with the envelope builders of the runner): a
 * committed output is tainted exactly when the node or one of its ancestors in the plan
 * committed a report with an external origin. In a fork the replayed nodes count with the
 * origins their rows had in the run they come from.
 */
module RunTaint {
  import opened Core
  import opened Orders
  import opened Domain
  import opened Waves
  import opened RunModel
  import opened CommitOrder
  import opened RunEffects
  import opened RunDurable

  /** There is a path, possibly of one node, from a to n. */
  ghost predicate Reaches(g: Digraph, a: NodeId, n: NodeId) {
    exists p :: IsPath(g, p) && p[0] == a && p[|p| - 1] == n
  }

  lemma {:induction false} ReachesSelf(g: Digraph, n: NodeId)
    requires n in g.nodes
    ensures Reaches(g, n, n)
  {
    var p := [n];
    assert SetOf(p) == {n};
    assert IsPath(g, p);
  }

  lemma {:induction false} ReachesStep(g: Digraph, a: NodeId, u: NodeId, n: NodeId)
    requires Reaches(g, a, u) && Edge(g, u, n) && n in g.nodes
    ensures Reaches(g, a, n)
  {
    var p :| IsPath(g, p) && p[0] == a && p[|p| - 1] == u;
    PathSnoc(g, p, n);
    assert (p + [n])[0] == a;
  }

  /** A path into n is n alone or goes through a predecessor of n. */
  lemma {:induction false} ReachesInversion(g: Digraph, a: NodeId, n: NodeId) returns (u: NodeId)
    requires Reaches(g, a, n)
    ensures a == n || (u in g.nodes && Edge(g, u, n) && Reaches(g, a, u))
  {
    var p :| IsPath(g, p) && p[0] == a && p[|p| - 1] == n;
    u := n;
    if |p| > 1 {
      u := p[|p| - 2];
      var q := p[..|p| - 1];
      assert Edge(g, p[|p| - 2], p[|p| - 2 + 1]);
      PathFront(g, p);
      assert IsPath(g, q) && q[0] == a && q[|q| - 1] == u;
      assert u in SetOf(p);
    }
  }

  lemma {:induction false} PathFront(g: Digraph, p: seq<NodeId>)
    requires IsPath(g, p) && |p| > 1
    ensures IsPath(g, p[..|p| - 1])
  {
    var q := p[..|p| - 1];
    assert forall x | x in SetOf(q) :: x in SetOf(p);
    forall i | 0 <= i < |q| - 1 ensures Edge(g, q[i], q[i + 1]) {
      assert Edge(g, p[i], p[i + 1]);
    }
  }

  /** Paths only go forward in the commit order. */
  lemma {:induction false} ReachesForward(g: Digraph, ws: seq<seq<NodeId>>, i: nat, j: nat)
    requires Closed(g) && IsLevelling(g, {}, ws) && i < |Flatten(ws)| && j < |Flatten(ws)|
    requires Reaches(g, Flatten(ws)[i], Flatten(ws)[j])
    ensures i <= j
  {
    var order := Flatten(ws);
    var p :| IsPath(g, p) && p[0] == order[i] && p[|p| - 1] == order[j];
    PathForward(g, ws, p, i, j);
  }

  lemma {:induction false} PathForward(g: Digraph, ws: seq<seq<NodeId>>, p: seq<NodeId>, i: nat, j: nat)
    requires Closed(g) && IsLevelling(g, {}, ws) && i < |Flatten(ws)| && j < |Flatten(ws)|
    requires IsPath(g, p) && p[0] == Flatten(ws)[i] && p[|p| - 1] == Flatten(ws)[j]
    ensures i <= j
    decreases |p|
  {
    var order := Flatten(ws);
    if |p| == 1 {
      if j < i {
        OrderDistinct(g, ws, j, i);
      }
    } else {
      var u := p[|p| - 2];
      PathFront(g, p);
      assert u in SetOf(p);
      assert Edge(g, p[|p| - 2], p[|p| - 2 + 1]);
      var m := OrderMember(g, ws, u);
      EdgesGoForward(g, ws, m, j);
      PathForward(g, ws, p[..|p| - 1], i, m);
    }
  }

  // ---------------------------------------------------------------- merging

  /** The merge is tainted exactly when an input is, and then carries one input's mark. */
  lemma {:induction false} MergeTaintSpec(ts: seq<Taint>)
    ensures MergeTaint(ts).Tainted? <==> exists i :: 0 <= i < |ts| && ts[i].Tainted?
    ensures MergeTaint(ts).Tainted? ==> MergeTaint(ts) in ts
    decreases |ts|
  {
    if ts != [] && !ts[0].Tainted? {
      MergeTaintSpec(ts[1..]);
      assert forall i | 0 <= i < |ts[1..]| :: ts[1..][i] == ts[i + 1];
    }
  }

  lemma {:induction false} TaintsOfSpec(outputs: map<NodeId, Envelope>, preds: seq<NodeId>, t: Taint)
    ensures t in TaintsOf(outputs, preds) <==> exists u :: u in preds && u in outputs && outputs[u].taint == t
    decreases |preds|
  {
    if preds != [] {
      TaintsOfSpec(outputs, preds[1..], t);
      if t in TaintsOf(outputs, preds) {
        if preds[0] in outputs && outputs[preds[0]].taint == t {
          assert preds[0] in preds;
        } else {
          assert t in TaintsOf(outputs, preds[1..]);
          var u :| u in preds[1..] && u in outputs && outputs[u].taint == t;
          assert u in preds;
        }
      }
      if u :| u in preds && u in outputs && outputs[u].taint == t {
        assert u == preds[0] || u in preds[1..];
      }
    }
  }

  /** The assembled input is tainted exactly when a predecessor's output is, with its mark. */
  lemma {:induction false} InputTaint(S: Session, outputs: map<NodeId, Envelope>, n: NodeId, stage: StageSpec)
    ensures var t := BuildInput(S, outputs, n, stage).taint;
            && (t.Tainted? <==> exists u :: Edge(S.g, u, n) && u in outputs && outputs[u].taint.Tainted?)
            && (t.Tainted? ==> exists u :: Edge(S.g, u, n) && u in outputs && outputs[u].taint == t)
  {
    var preds := Sorted(Preds(S.g, n));
    SortedSpec(Preds(S.g, n));
    var ts := TaintsOf(outputs, preds);
    MergeTaintSpec(ts);
    var t := MergeTaint(ts);
    if t.Tainted? {
      TaintsOfSpec(outputs, preds, t);
      var u :| u in preds && u in outputs && outputs[u].taint == t;
      assert Edge(S.g, u, n);
    }
    if u :| Edge(S.g, u, n) && u in outputs && outputs[u].taint.Tainted? {
      assert u in preds;
      TaintsOfSpec(outputs, preds, outputs[u].taint);
      assert outputs[u].taint in ts;
    }
  }

  /** A derived output keeps the input's mark; a clean one takes the declared origin. */
  lemma {:induction false} OutputTaint(S: Session, n: NodeId, report: Report, input: Envelope)
    ensures BuildOutput(S, n, report, input).taint
            == if input.taint.Tainted? then input.taint
               else if report.externalOrigin.Some? then Tainted(report.externalOrigin.value)
               else Clean
  {
  }

  // ---------------------------------------------------------------- the run invariant

  /** The mark of a fresh output, from the outputs of the predecessors and the declared origin. */
  function DerivedTaint(S: Session, d: Durable, n: NodeId): Taint {
    var t := MergeTaint(TaintsOf(d.outputs, Sorted(Preds(S.g, n))));
    if t.Tainted? then t
    else if n in d.origins && d.origins[n].Some? then Tainted(d.origins[n].value)
    else Clean
  }

  /** Some report of the executor declares this origin, or declares none. */
  ghost predicate Declared(S: Session, origin: Option<string>) {
    exists report :: Reported(S, report) && report.externalOrigin == origin
  }

  ghost predicate FreshTaint(S: Session, d: Durable, i: nat)
    requires i < |Order(S)|
  {
    && Order(S)[i] in d.outputs && d.outputs[Order(S)[i]].taint == DerivedTaint(S, d, Order(S)[i])
    && Order(S)[i] in d.origins && Declared(S, d.origins[Order(S)[i]])
  }

  /** Every row that was executed and not replayed has its derived mark, from a declared origin. */
  ghost predicate TaintOk(S: Session, d: Durable) {
    && |d.commits| <= |Order(S)|
    && forall i: nat | i < |d.commits| && CachedRow(S, i + 1).None? :: FreshTaint(S, d, i)
  }

  lemma {:induction false} SameTaints(outputs: map<NodeId, Envelope>, outputs': map<NodeId, Envelope>,
                                      preds: seq<NodeId>)
    requires forall u | u in preds :: (u in outputs' <==> u in outputs) && (u in outputs ==> outputs'[u] == outputs[u])
    ensures TaintsOf(outputs', preds) == TaintsOf(outputs, preds)
    decreases |preds|
  {
    if preds != [] {
      assert preds[0] in preds;
      SameTaints(outputs, outputs', preds[1..]);
    }
  }

  /** The next node to commit is no predecessor of a node up to it. */
  lemma {:induction false} NextIsNoPred(S: Session, d: Durable, b: Boundary, p: Product, i: nat)
    requires CommitDue(S, d, b, p) && i <= |d.commits|
    ensures var outputs' := CommitDurable(S, d, b, p).outputs; var preds := Sorted(Preds(S.g, Order(S)[i]));
            TaintsOf(outputs', preds) == TaintsOf(d.outputs, preds)
  {
    SortedSpec(Preds(S.g, Order(S)[i]));
    if Edge(S.g, b.node, Order(S)[i]) {
      EdgesGoForward(S.g, S.waves, |d.commits|, i);
    }
    SameTaints(d.outputs, CommitDurable(S, d, b, p).outputs, Sorted(Preds(S.g, Order(S)[i])));
  }

  lemma {:induction false} OldTaintStays(S: Session, d: Durable, b: Boundary, p: Product, i: nat)
    requires CommitDue(S, d, b, p) && i < |d.commits| && FreshTaint(S, d, i)
    ensures FreshTaint(S, CommitDurable(S, d, b, p), i)
  {
    NextIsNoPred(S, d, b, p, i);
    OrderDistinct(S.g, S.waves, i, |d.commits|);
  }

  lemma {:induction false} NewTaintDerives(S: Session, d: Durable, b: Boundary, p: Product)
    requires CommitDue(S, d, b, p) && p.output.Live? && Reported(S, p.output.report)
    requires b.input == BuildInput(S, d.outputs, b.node, b.stage)
    requires p.out == BuildOutput(S, b.node, p.output.report, b.input)
    ensures FreshTaint(S, CommitDurable(S, d, b, p), |d.commits|)
  {
    NextIsNoPred(S, d, b, p, |d.commits|);
    OutputTaint(S, b.node, p.output.report, b.input);
  }

  lemma {:induction false} TaintOkNext(S: Session, d: Durable, k: nat)
    requires |d.commits| == k + 1 <= |Order(S)|
    requires forall i: nat | i < k && CachedRow(S, i + 1).None? :: FreshTaint(S, d, i)
    requires CachedRow(S, k + 1).None? ==> FreshTaint(S, d, k)
    ensures TaintOk(S, d)
  {
  }

  /** A commit of the next node keeps marks derived. */
  lemma {:induction false} CommitKeepsTaint(S: Session, d: Durable, b: Boundary, p: Product)
    requires CommitDue(S, d, b, p) && TaintOk(S, d)
    requires b.node in S.stages && b.input == BuildInput(S, d.outputs, b.node, b.stage)
    requires CachedRow(S, |d.commits| + 1).None? ==>
               && p.output.Live? && Reported(S, p.output.report)
               && p.out == BuildOutput(S, b.node, p.output.report, b.input)
    ensures TaintOk(S, CommitDurable(S, d, b, p))
  {
    var d' := CommitDurable(S, d, b, p);
    var k := |d.commits|;
    forall i: nat | i < k && CachedRow(S, i + 1).None? ensures FreshTaint(S, d', i) {
      assert FreshTaint(S, d, i);
      OldTaintStays(S, d, b, p, i);
    }
    if CachedRow(S, k + 1).None? {
      NewTaintDerives(S, d, b, p);
    }
    TaintOkNext(S, d', k);
  }

  // ---------------------------------------------------------------- reachability

  /** Node a, with an external origin, reaches node n. */
  ghost predicate SourceOf(S: Session, origins: map<NodeId, Option<string>>, n: NodeId, a: NodeId) {
    a in origins && origins[a].Some? && Reaches(S.g, a, n)
  }

  /** The mark says exactly whether a source reaches node n, and then names a source's origin. */
  ghost predicate TaintExact(S: Session, origins: map<NodeId, Option<string>>, n: NodeId, t: Taint) {
    && (t.Tainted? <==> exists a :: SourceOf(S, origins, n, a))
    && (t.Tainted? ==> exists a :: SourceOf(S, origins, n, a) && origins[a] == Some(t.origin))
  }

  ghost predicate RowExact(S: Session, d: Durable, origins: map<NodeId, Option<string>>, i: nat)
    requires i < |d.rows| && i < |Order(S)|
  {
    TaintExact(S, origins, Order(S)[i], d.rows[i].envelope.taint)
  }

  /** The marks of all checkpoint rows are exact for the given origins of their nodes. */
  ghost predicate RowsExact(S: Session, d: Durable, origins: map<NodeId, Option<string>>) {
    && |d.rows| <= |Order(S)|
    && forall i: nat | i < |d.rows| :: RowExact(S, d, origins, i)
  }

  lemma {:induction false} PredsCommitted(S: Session, d: Durable, u: NodeId)
    requires Compiled(S) && DurableOk(S, d) && |d.commits| < |Order(S)| && Edge(S.g, u, Order(S)[|d.commits|])
    ensures u in d.commits && u in d.outputs
  {
    var m := PredPlace(S, d, u, |d.commits|);
    assert d.commits[m] == u;
    assert u in SetOf(d.commits);
  }

  lemma {:induction false} PredPlace(S: Session, d: Durable, u: NodeId, i: nat) returns (m: nat)
    requires Compiled(S) && i < |Order(S)| && Edge(S.g, u, Order(S)[i])
    ensures m < i && Order(S)[m] == u
  {
    m := OrderMember(S.g, S.waves, u);
    EdgesGoForward(S.g, S.waves, m, i);
  }

  /** The output of row m carries row m's mark. */
  lemma {:induction false} OutputOfRow(S: Session, d: Durable, m: nat)
    requires DurableOk(S, d) && m < |d.rows|
    ensures Order(S)[m] in d.outputs && d.outputs[Order(S)[m]] == d.rows[m].envelope
  {
    assert RowOk(S, d, m);
  }

  /** A derived mark is exact when the rows before are. */
  lemma {:induction false} DerivedIsSound(S: Session, d: Durable, origins: map<NodeId, Option<string>>, i: nat)
    returns (a: NodeId)
    requires Compiled(S) && DurableOk(S, d) && i < |d.rows| && FreshTaint(S, d, i) && d.rows[i].envelope.taint.Tainted?
    requires Order(S)[i] in origins && Order(S)[i] in d.origins && origins[Order(S)[i]] == d.origins[Order(S)[i]]
    requires forall j: nat | j < i :: RowExact(S, d, origins, j)
    ensures SourceOf(S, origins, Order(S)[i], a) && origins[a] == Some(d.rows[i].envelope.taint.origin)
  {
    var n := Order(S)[i];
    OrderInside(S.g, S.waves, i);
    OutputOfRow(S, d, i);
    var preds := Sorted(Preds(S.g, n));
    SortedSpec(Preds(S.g, n));
    MergeTaintSpec(TaintsOf(d.outputs, preds));
    var t := MergeTaint(TaintsOf(d.outputs, preds));
    if t.Tainted? {
      TaintsOfSpec(d.outputs, preds, t);
      var u :| u in preds && u in d.outputs && d.outputs[u].taint == t;
      var m := PredPlace(S, d, u, i);
      OutputOfRow(S, d, m);
      assert RowExact(S, d, origins, m);
      a :| SourceOf(S, origins, u, a) && origins[a] == Some(t.origin);
      ReachesStep(S.g, a, u, n);
    } else {
      a := n;
      ReachesSelf(S.g, n);
    }
  }

  lemma {:induction false} DerivedIsComplete(S: Session, d: Durable, origins: map<NodeId, Option<string>>, i: nat,
                                             a: NodeId)
    requires Compiled(S) && DurableOk(S, d) && i < |d.rows| && FreshTaint(S, d, i)
    requires Order(S)[i] in origins && Order(S)[i] in d.origins && origins[Order(S)[i]] == d.origins[Order(S)[i]]
    requires forall j: nat | j < i :: RowExact(S, d, origins, j)
    requires SourceOf(S, origins, Order(S)[i], a)
    ensures d.rows[i].envelope.taint.Tainted?
  {
    var n := Order(S)[i];
    OutputOfRow(S, d, i);
    if a != n {
      var u := ReachesInversion(S.g, a, n);
      var m := PredPlace(S, d, u, i);
      OutputOfRow(S, d, m);
      assert RowExact(S, d, origins, m) && SourceOf(S, origins, u, a);
      var preds := Sorted(Preds(S.g, n));
      SortedSpec(Preds(S.g, n));
      TaintsOfSpec(d.outputs, preds, d.outputs[u].taint);
      MergeTaintSpec(TaintsOf(d.outputs, preds));
    }
  }

  lemma {:induction false} DerivedIsExact(S: Session, d: Durable, origins: map<NodeId, Option<string>>, i: nat)
    requires Compiled(S) && DurableOk(S, d) && i < |d.rows| && FreshTaint(S, d, i)
    requires Order(S)[i] in origins && Order(S)[i] in d.origins && origins[Order(S)[i]] == d.origins[Order(S)[i]]
    requires forall j: nat | j < i :: RowExact(S, d, origins, j)
    ensures RowExact(S, d, origins, i)
  {
    if d.rows[i].envelope.taint.Tainted? {
      var a := DerivedIsSound(S, d, origins, i);
    }
    if a :| SourceOf(S, origins, Order(S)[i], a) {
      DerivedIsComplete(S, d, origins, i, a);
    }
  }

  /** The origins that count: a run's own for executed rows, and any for which replayed rows are exact. */
  ghost predicate OriginsFit(S: Session, d: Durable, origins: map<NodeId, Option<string>>)
    requires |d.rows| <= |Order(S)|
  {
    forall i: nat | i < |d.rows| ::
      if CachedRow(S, i + 1).Some? then RowExact(S, d, origins, i)
      else Order(S)[i] in origins && Order(S)[i] in d.origins && origins[Order(S)[i]] == d.origins[Order(S)[i]]
  }

  ghost predicate ExactUpTo(S: Session, d: Durable, origins: map<NodeId, Option<string>>, k: nat) {
    && k <= |d.rows| <= |Order(S)|
    && forall i: nat | i < k :: RowExact(S, d, origins, i)
  }

  lemma {:induction false} RowTaintExact(S: Session, d: Durable, origins: map<NodeId, Option<string>>, i: nat)
    requires Compiled(S) && DurableOk(S, d) && TaintOk(S, d) && OriginsFit(S, d, origins) && i < |d.rows|
    requires ExactUpTo(S, d, origins, i)
    ensures ExactUpTo(S, d, origins, i + 1)
  {
    if CachedRow(S, i + 1).None? {
      assert FreshTaint(S, d, i);
      DerivedIsExact(S, d, origins, i);
    }
  }

  /** Exactness spreads along the plan from the replayed rows and the declared origins. */
  lemma {:induction false} TaintSpreads(S: Session, d: Durable, origins: map<NodeId, Option<string>>, k: nat)
    requires Compiled(S) && DurableOk(S, d) && TaintOk(S, d) && OriginsFit(S, d, origins) && k <= |d.rows|
    ensures ExactUpTo(S, d, origins, k)
    decreases k
  {
    if k > 0 {
      TaintSpreads(S, d, origins, k - 1);
      RowTaintExact(S, d, origins, k - 1);
    }
  }
}
