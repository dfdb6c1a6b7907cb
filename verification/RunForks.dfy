/**
 * Taint in forks. A fork executes again the commits whose response rows were lost, and the
 * rows it replays keep the marks they were stored with: exactly when those marks still hold
 * is taint reachability in the fork, whatever the executor answers.
 */
module RunForks {
  import opened Core
  import opened Orders
  import opened Domain
  import opened Waves
  import opened RunModel
  import opened CommitOrder
  import opened RunEffects
  import opened RunDurable
  import opened RunTaint
  import opened RunInvariant
  import opened RunSteps
  import opened RunOutcomes
  import opened RunTheorems
  import opened RunUndisturbed
  import opened RunWitnesses

  // ---------------------------------------------------------------- the condition

  /** The origins that count in a fork: those of its origin for replayed rows, its own for the rest. */
  function ForkOrigins(F: Session, d': Durable, origins: map<NodeId, Option<string>>): map<NodeId, Option<string>> {
    map n | n in d'.origins ::
      if CachedRow(F, Ordinal(Order(F), n)).Some? && n in origins then origins[n] else d'.origins[n]
  }

  /** No ancestor of the node at place i executes again. */
  ghost predicate AncestorsReplayed(F: Session, i: nat)
    requires i < |Order(F)|
  {
    forall m: nat | m < i && Reaches(F.g, Order(F)[m], Order(F)[i]) :: CachedRow(F, m + 1).Some?
  }

  /** The node at place m is replayed, declared this origin in the origin session, and reaches place i. */
  ghost predicate ReplayedSource(F: Session, origins: map<NodeId, Option<string>>, i: nat, origin: string, m: nat)
    requires i < |Order(F)|
  {
    && m < |Order(F)| && CachedRow(F, m + 1).Some? && Reaches(F.g, Order(F)[m], Order(F)[i])
    && Order(F)[m] in origins && origins[Order(F)[m]] == Some(origin)
  }

  /** The replayed row at place i is marked, with an origin that some replayed node declared. */
  ghost predicate MarkSourced(F: Session, origins: map<NodeId, Option<string>>, i: nat)
    requires i < |Order(F)| && CachedRow(F, i + 1).Some?
  {
    var t := CachedRow(F, i + 1).value.envelope.taint;
    t.Tainted? && exists m: nat :: ReplayedSource(F, origins, i, t.origin, m)
  }

  /** Every replayed row has all its ancestors replayed, or its mark's source among them. */
  ghost predicate MarksHold(F: Session, origins: map<NodeId, Option<string>>) {
    forall i: nat | i < |Order(F)| && CachedRow(F, i + 1).Some? :: AncestorsReplayed(F, i) || MarkSourced(F, origins, i)
  }

  /** No row was lost, or only rows of which no replayed row is a descendant. */
  ghost predicate ReplayClosed(F: Session) {
    forall i: nat | i < |Order(F)| && CachedRow(F, i + 1).Some? :: AncestorsReplayed(F, i)
  }

  /** Taint is reachability in the fork: in all its rows, with the origins that count. */
  ghost predicate ForkExact(F: Session, d': Durable, origins: map<NodeId, Option<string>>) {
    var origins' := ForkOrigins(F, d', origins);
    origins'.Keys == d'.outputs.Keys && RowsExact(F, d', origins')
  }

  // ---------------------------------------------------------------- rows of a fork

  lemma {:induction false} KeysOfPlace(S: Session, d: Durable, m: nat)
    requires DurableOk(S, d) && m < |d.commits|
    ensures Order(S)[m] in d.outputs && Order(S)[m] in d.origins
  {
  }

  lemma {:induction false} ReachesFromNode(g: Digraph, a: NodeId, n: NodeId)
    requires Reaches(g, a, n)
    ensures a in g.nodes
  {
    var p :| IsPath(g, p) && p[0] == a && p[|p| - 1] == n;
    assert p[0] in SetOf(p);
  }

  /** The place of a node that reaches place i. */
  lemma {:induction false} SourcePlace(F: Session, i: nat, a: NodeId) returns (m: nat)
    requires Compiled(F) && i < |Order(F)| && Reaches(F.g, a, Order(F)[i])
    ensures m <= i && Order(F)[m] == a && Ordinal(Order(F), a) == m + 1
  {
    ReachesFromNode(F.g, a, Order(F)[i]);
    m := OrderMember(F.g, F.waves, a);
    ReachesForward(F.g, F.waves, m, i);
    OrdinalIsPlace(F, m);
  }

  /** A replayed row keeps the envelope it was stored with. */
  lemma {:induction false} SameEnvelope(S: Session, F: Session, d: Durable, d': Durable, at: nat, i: nat)
    requires ForkOf(F, S, d, 0, at) && DurableOk(S, d) && DurableOk(F, d') && ReplayOk(F, d')
    requires i < |d'.rows| && CachedRow(F, i + 1).Some?
    ensures i < |d.rows| && d'.rows[i].envelope == d.rows[i].envelope == CachedRow(F, i + 1).value.envelope
  {
    ForkRow(S, F, d, 0, at, i + 1);
    assert RowOk(S, d, i) && RowOk(F, d', i);
  }

  /** The origin that counts for the node at place m. */
  lemma {:induction false} CountedOrigin(S: Session, F: Session, d: Durable, d': Durable,
                                         origins: map<NodeId, Option<string>>, at: nat, m: nat)
    requires Compiled(F) && ForkOf(F, S, d, 0, at) && DurableOk(S, d) && DurableOk(F, d')
    requires origins.Keys == d.outputs.Keys && m < |d'.rows|
    ensures var a, org := Order(F)[m], ForkOrigins(F, d', origins);
            && a in org && a in d'.origins
            && (if CachedRow(F, m + 1).Some? then a in origins && org[a] == origins[a] else org[a] == d'.origins[a])
  {
    KeysOfPlace(F, d', m);
    OrdinalIsPlace(F, m);
    if CachedRow(F, m + 1).Some? {
      ForkRow(S, F, d, 0, at, m + 1);
      KeysOfPlace(S, d, m);
    }
  }

  // ---------------------------------------------------------------- marks that hold

  /** What a fork and its origin session have in common, after the fork ran up to some row. */
  ghost predicate Forked(S: Session, F: Session, d: Durable, d': Durable, origins: map<NodeId, Option<string>>, at: nat)
  {
    && Compiled(S) && Compiled(F) && ForkOf(F, S, d, 0, at)
    && DurableOk(S, d) && DurableOk(F, d') && ReplayOk(F, d')
    && origins.Keys == d.outputs.Keys && RowsExact(S, d, origins)
  }

  lemma {:induction false} SourceReplayed(F: Session, i: nat, a: NodeId) returns (m: nat)
    requires Compiled(F) && i < |Order(F)| && CachedRow(F, i + 1).Some? && AncestorsReplayed(F, i)
    requires Reaches(F.g, a, Order(F)[i])
    ensures m <= i && Order(F)[m] == a && CachedRow(F, m + 1).Some?
  {
    m := SourcePlace(F, i, a);
  }

  /** With all ancestors replayed, the sources of a replayed row are those of the origin session. */
  lemma {:induction false} SameSource(S: Session, F: Session, d: Durable, d': Durable,
                                      origins: map<NodeId, Option<string>>, at: nat, i: nat, a: NodeId)
    requires Compiled(F) && ForkOf(F, S, d, 0, at) && DurableOk(S, d) && DurableOk(F, d')
    requires origins.Keys == d.outputs.Keys
    requires i < |d'.rows| && CachedRow(F, i + 1).Some? && AncestorsReplayed(F, i) && Reaches(F.g, a, Order(F)[i])
    ensures var org := ForkOrigins(F, d', origins); a in org && a in origins && org[a] == origins[a]
  {
    var m := SourceReplayed(F, i, a);
    CountedOrigin(S, F, d, d', origins, at, m);
  }

  lemma {:induction false} ClosedRowExact(S: Session, F: Session, d: Durable, d': Durable,
                                          origins: map<NodeId, Option<string>>, at: nat, i: nat)
    requires Forked(S, F, d, d', origins, at)
    requires i < |d'.rows| && CachedRow(F, i + 1).Some? && AncestorsReplayed(F, i)
    ensures RowExact(F, d', ForkOrigins(F, d', origins), i)
  {
    var n, org := Order(F)[i], ForkOrigins(F, d', origins);
    SameEnvelope(S, F, d, d', at, i);
    assert RowExact(S, d, origins, i);
    forall a ensures SourceOf(F, org, n, a) <==> SourceOf(S, origins, n, a) {
      if Reaches(F.g, a, n) {
        SameSource(S, F, d, d', origins, at, i, a);
      }
    }
    if d'.rows[i].envelope.taint.Tainted? {
      var a :| SourceOf(S, origins, n, a) && origins[a] == Some(d.rows[i].envelope.taint.origin);
      SameSource(S, F, d, d', origins, at, i, a);
      assert SourceOf(F, org, n, a) && org[a] == Some(d'.rows[i].envelope.taint.origin);
    }
  }

  lemma {:induction false} SourcedRowExact(S: Session, F: Session, d: Durable, d': Durable,
                                           origins: map<NodeId, Option<string>>, at: nat, i: nat)
    requires Forked(S, F, d, d', origins, at)
    requires i < |d'.rows| && CachedRow(F, i + 1).Some? && MarkSourced(F, origins, i)
    ensures RowExact(F, d', ForkOrigins(F, d', origins), i)
  {
    var n, org := Order(F)[i], ForkOrigins(F, d', origins);
    SameEnvelope(S, F, d, d', at, i);
    var origin := d'.rows[i].envelope.taint.origin;
    var m: nat :| ReplayedSource(F, origins, i, origin, m);
    ReachesForward(F.g, F.waves, m, i);
    CountedOrigin(S, F, d, d', origins, at, m);
    assert SourceOf(F, org, n, Order(F)[m]) && org[Order(F)[m]] == Some(origin);
  }

  lemma {:induction false} ForkOriginsFit(S: Session, F: Session, d: Durable, d': Durable,
                                          origins: map<NodeId, Option<string>>, at: nat)
    requires Forked(S, F, d, d', origins, at) && MarksHold(F, origins)
    ensures OriginsFit(F, d', ForkOrigins(F, d', origins))
  {
    forall i: nat | i < |d'.rows|
      ensures if CachedRow(F, i + 1).Some? then RowExact(F, d', ForkOrigins(F, d', origins), i)
              else Order(F)[i] in d'.origins && ForkOrigins(F, d', origins)[Order(F)[i]] == d'.origins[Order(F)[i]]
    {
      if CachedRow(F, i + 1).None? {
        CountedOrigin(S, F, d, d', origins, at, i);
      } else if AncestorsReplayed(F, i) {
        ClosedRowExact(S, F, d, d', origins, at, i);
      } else {
        SourcedRowExact(S, F, d, d', origins, at, i);
      }
    }
  }

  /**
   * Taint is exactly reachability in a fork whose replayed marks hold, with the origins of
   * the origin session for the replayed rows and the fork's own for the rest. The result is
   * again of the form required, so it passes to forks of forks.
   */
  lemma {:induction false} ForkTaintIsReachability(S: Session, F: Session, at: nat,
                                                   origins: map<NodeId, Option<string>>)
    requires Compiled(S) && Compiled(F) && ForkOf(F, S, Run(S).0.durable, 0, at)
    requires origins.Keys == Run(S).0.durable.outputs.Keys && RowsExact(S, Run(S).0.durable, origins)
    requires MarksHold(F, origins)
    ensures ForkExact(F, Run(F).0.durable, origins)
  {
    var s := RunAccount(S);
    var f := RunAccount(F);
    ForkOriginsFit(S, F, s.durable, f.durable, origins, at);
    TaintSpreads(F, f.durable, ForkOrigins(F, f.durable, origins), |f.durable.rows|);
  }

  /** Nothing lost, or nothing that a replayed row depends on: the marks hold for any origins. */
  lemma {:induction false} ClosedMarksHold(F: Session, origins: map<NodeId, Option<string>>)
    requires ReplayClosed(F)
    ensures MarksHold(F, origins)
  {
  }

  // ---------------------------------------------------------------- marks that do not hold

  /** A confident report that declares this origin, or none. */
  function ConfidentReport(origin: Option<string>): Report {
    Report(Text(""), 1.0, 0, 0, 0, "", None, origin)
  }

  /** Gates pass, nothing interrupts, and every report declares the same origin, or none. */
  function DeclaringWorld(origin: Option<string>): World {
    World(
      (i: nat, request: StageRequest) => Finished(ConfidentReport(origin)),
      (i: nat, request: StageRequest) => [],
      (i: nat, run: GateRun) => GateAnswer(run.gateRef, Pass(1.0)),
      (i: nat, hash: Option<Digest>) => false,
      (i: nat) => false,
      (c: HandoffContract) => Digest(""))
  }

  /** Nothing but the executor decides a run: a clear way, room in the cap, and a floor that can be reached. */
  ghost predicate CanComplete(S: Session) {
    ClearWay(S) && |PlanEdges(S.g)| <= S.policy.maxHandoffs && S.policy.minConfidence <= 1.0
  }

  lemma {:induction false} DeclaringRun(S: Session, origin: Option<string>) returns (s: RunState)
    requires Compiled(S) && CanComplete(S) && S.world == DeclaringWorld(origin)
    ensures Run(S).1 == Ended(Completed, None) && s == Run(S).0 && s.durable.commits == Order(S) && Account(S, s)
  {
    HandoffCapDecides(S);
    s := RunAccount(S);
  }

  /** A node that was executed in such a world declared its origin. */
  lemma {:induction false} DeclaredOrigin(S: Session, d: Durable, origin: Option<string>, m: nat)
    requires S.world == DeclaringWorld(origin) && TaintOk(S, d) && m < |d.commits| && CachedRow(S, m + 1).None?
    ensures Order(S)[m] in d.origins && d.origins[Order(S)[m]] == origin
  {
    assert FreshTaint(S, d, m);
    var report :| Reported(S, report) && report.externalOrigin == d.origins[Order(S)[m]];
    var i, request :| S.world.execute(i, request) == Finished(report);
  }

  /** An origin other than the mark of the row. */
  function OtherOrigin(t: Taint): string {
    if t.Tainted? then t.origin + "'" else "web"
  }

  /** An ancestor of a replayed row executes again, and no replayed node declared the row's mark. */
  ghost predicate Unsourced(F: Session, origins: map<NodeId, Option<string>>, i: nat, m: nat) {
    && m < i < |Order(F)| && CachedRow(F, i + 1).Some? && CachedRow(F, m + 1).None?
    && Reaches(F.g, Order(F)[m], Order(F)[i]) && !MarkSourced(F, origins, i)
  }

  /** Then a run in which the others declare another origin has a wrong mark at that row. */
  lemma {:induction false} UnsourcedRowWrong(S: Session, F: Session, d: Durable, d': Durable,
                                             origins: map<NodeId, Option<string>>, at: nat, i: nat, m: nat)
    requires Forked(S, F, d, d', origins, at) && TaintOk(F, d') && i < |d'.rows| && Unsourced(F, origins, i, m)
    requires F.world == DeclaringWorld(Some(OtherOrigin(CachedRow(F, i + 1).value.envelope.taint)))
    ensures !RowExact(F, d', ForkOrigins(F, d', origins), i)
  {
    var n, org, t := Order(F)[i], ForkOrigins(F, d', origins), d'.rows[i].envelope.taint;
    SameEnvelope(S, F, d, d', at, i);
    CountedOrigin(S, F, d, d', origins, at, m);
    DeclaredOrigin(F, d', Some(OtherOrigin(t)), m);
    assert SourceOf(F, org, n, Order(F)[m]);
    if t.Tainted? {
      forall a | SourceOf(F, org, n, a) ensures org[a] != Some(t.origin) {
        var k := SourcePlace(F, i, a);
        CountedOrigin(S, F, d, d', origins, at, k);
        if CachedRow(F, k + 1).None? {
          DeclaredOrigin(F, d', Some(OtherOrigin(t)), k);
        } else if org[a] == Some(t.origin) {
          assert ReplayedSource(F, origins, i, t.origin, k);
        }
      }
    }
  }

  // ---------------------------------------------------------------- other worlds

  lemma {:induction false} SameCached(F: Session, w: World, k: nat)
    ensures CachedRow(F.(world := w), k) == CachedRow(F, k)
  {
  }

  lemma {:induction false} SameForkOf(F: Session, S: Session, d: Durable, at: nat, w: World)
    requires Compiled(F) && ForkOf(F, S, d, 0, at)
    ensures Compiled(F.(world := w)) && ForkOf(F.(world := w), S, d, 0, at)
  {
  }

  /** Whether marks hold does not depend on the world. */
  lemma {:induction false} SameMarks(F: Session, w: World, origins: map<NodeId, Option<string>>)
    requires MarksHold(F, origins)
    ensures MarksHold(F.(world := w), origins)
  {
    var G := F.(world := w);
    assert Order(G) == Order(F);
    forall i: nat | i < |Order(G)| && CachedRow(G, i + 1).Some?
      ensures AncestorsReplayed(G, i) || MarkSourced(G, origins, i)
    {
      SameCached(F, w, i + 1);
      if AncestorsReplayed(F, i) {
        forall m: nat | m < i && Reaches(G.g, Order(G)[m], Order(G)[i]) ensures CachedRow(G, m + 1).Some? {
          SameCached(F, w, m + 1);
        }
      } else {
        var t := CachedRow(F, i + 1).value.envelope.taint;
        var m: nat :| ReplayedSource(F, origins, i, t.origin, m);
        SameCached(F, w, m + 1);
        assert ReplayedSource(G, origins, i, t.origin, m);
      }
    }
  }

  lemma {:induction false} SameUnsourced(F: Session, w: World, origins: map<NodeId, Option<string>>, i: nat, m: nat)
    requires Unsourced(F, origins, i, m)
    ensures Unsourced(F.(world := w), origins, i, m)
  {
    var G := F.(world := w);
    assert Order(G) == Order(F);
    SameCached(F, w, i + 1);
    SameCached(F, w, m + 1);
    if MarkSourced(G, origins, i) {
      var t := CachedRow(G, i + 1).value.envelope.taint;
      var k: nat :| ReplayedSource(G, origins, i, t.origin, k);
      SameCached(F, w, k + 1);
      assert ReplayedSource(F, origins, i, t.origin, k);
    }
  }

  /** Some executor breaks a fork whose marks do not hold. */
  lemma {:induction false} SomeWorldBreaks(S: Session, F: Session, at: nat, origins: map<NodeId, Option<string>>,
                                           i: nat, m: nat)
    returns (w: World)
    requires Compiled(S) && Compiled(F) && ForkOf(F, S, Run(S).0.durable, 0, at) && CanComplete(F)
    requires origins.Keys == Run(S).0.durable.outputs.Keys && RowsExact(S, Run(S).0.durable, origins)
    requires Unsourced(F, origins, i, m)
    ensures !ForkExact(F.(world := w), Run(F.(world := w)).0.durable, origins)
  {
    var origin := Some(OtherOrigin(CachedRow(F, i + 1).value.envelope.taint));
    w := DeclaringWorld(origin);
    var G := F.(world := w);
    var s := RunAccount(S);
    SameForkOf(F, S, s.durable, at, w);
    SameUnsourced(F, w, origins, i, m);
    SameWay(F, w);
    SameCached(F, w, i + 1);
    var g := DeclaringRun(G, origin);
    UnsourcedRowWrong(S, G, s.durable, g.durable, origins, at, i, m);
  }

  /** Whatever the fork's world answers, taint is reachability in the fork. */
  ghost predicate AlwaysExact(F: Session, origins: map<NodeId, Option<string>>) {
    forall w: World :: ForkExact(F.(world := w), Run(F.(world := w)).0.durable, origins)
  }

  lemma {:induction false} MarksHoldAlways(S: Session, F: Session, at: nat, origins: map<NodeId, Option<string>>)
    requires Compiled(S) && Compiled(F) && ForkOf(F, S, Run(S).0.durable, 0, at)
    requires origins.Keys == Run(S).0.durable.outputs.Keys && RowsExact(S, Run(S).0.durable, origins)
    requires MarksHold(F, origins)
    ensures AlwaysExact(F, origins)
  {
    forall w: World ensures ForkExact(F.(world := w), Run(F.(world := w)).0.durable, origins) {
      SameForkOf(F, S, Run(S).0.durable, at, w);
      SameMarks(F, w, origins);
      ForkTaintIsReachability(S, F.(world := w), at, origins);
    }
  }

  lemma {:induction false} SomeUnsourced(F: Session, origins: map<NodeId, Option<string>>) returns (i: nat, m: nat)
    requires !MarksHold(F, origins)
    ensures Unsourced(F, origins, i, m)
  {
    i :| i < |Order(F)| && CachedRow(F, i + 1).Some? && !AncestorsReplayed(F, i) && !MarkSourced(F, origins, i);
    m :| m < i && Reaches(F.g, Order(F)[m], Order(F)[i]) && CachedRow(F, m + 1).None?;
  }

  /**
   * When is taint reachability in a fork whatever its executor answers? When the replayed
   * marks hold; and only then, if nothing but the executor keeps the fork from completing.
   * Both are something to check on the stored rows before the fork starts.
   */
  lemma {:induction false} ForkTaintExactly(S: Session, F: Session, at: nat, origins: map<NodeId, Option<string>>)
    requires Compiled(S) && Compiled(F) && ForkOf(F, S, Run(S).0.durable, 0, at)
    requires origins.Keys == Run(S).0.durable.outputs.Keys && RowsExact(S, Run(S).0.durable, origins)
    ensures MarksHold(F, origins) ==> AlwaysExact(F, origins)
    ensures CanComplete(F) ==> (AlwaysExact(F, origins) <==> MarksHold(F, origins))
  {
    if MarksHold(F, origins) {
      MarksHoldAlways(S, F, at, origins);
    } else if CanComplete(F) {
      var i, m := SomeUnsourced(F, origins);
      var w := SomeWorldBreaks(S, F, at, origins, i, m);
    }
  }

  // ---------------------------------------------------------------- a fork that launders taint

  /** A two-stage plan whose executor declares no origin. */
  function CleanSession(): Session {
    Session(
      "task",
      map[FIRST := SampleStage(FIRST), SECOND := SampleStage(SECOND)],
      Digraph({FIRST, SECOND}, map[FIRST := {SECOND}, SECOND := {}]),
      [[FIRST], [SECOND]],
      PolicySet(20, 8, 2, 0.0),
      NO_BUDGET, None, None, DeclaringWorld(None), "session", 0, None, Digest(""))
  }

  /** Its fork after the first response row was lost, with an executor that declares an origin. */
  function LostRowFork(row: CachedExecution): Session {
    CleanSession().(fork := Some(Fork(2, map[2 := row])), world := DeclaringWorld(Some("web")))
  }

  ghost predicate TwoStages(S: Session) {
    && Compiled(S) && Order(S) == [FIRST, SECOND] && PlanEdges(S.g) == {(FIRST, SECOND)}
    && S.stages == map[FIRST := SampleStage(FIRST), SECOND := SampleStage(SECOND)]
    && S.policy == PolicySet(20, 8, 2, 0.0) && S.budget == NO_BUDGET
    && Preds(S.g, FIRST) == {}
  }

  lemma {:induction false} TwoStagesGraph(g: Digraph)
    requires g == Digraph({FIRST, SECOND}, map[FIRST := {SECOND}, SECOND := {}])
    ensures PlanEdges(g) == {(FIRST, SECOND)} && Preds(g, FIRST) == {}
  {
    assert FIRST.name != SECOND.name;
    assert forall u, v :: Edge(g, u, v) <==> u == FIRST && v == SECOND;
    forall h ensures h in PlanEdges(g) <==> h == (FIRST, SECOND) {
      if h in PlanEdges(g) {
        assert Edge(g, h.0, h.1);
      } else {
        assert !Edge(g, h.0, h.1);
      }
    }
    if u :| u in Preds(g, FIRST) {
      assert Edge(g, u, FIRST);
    }
  }

  lemma {:induction false} CleanSessionCompiles()
    ensures TwoStages(CleanSession())
  {
    var S := CleanSession();
    TwoStagesLevelled(S.g, S.waves);
    TwoStagesGraph(S.g);
  }

  lemma {:induction false} TwoStagesClear(S: Session)
    requires TwoStages(S) && !SomeForeignRow(S)
    ensures CanComplete(S)
  {
    forall u, v | Edge(S.g, u, v) ensures v in S.stages && S.stages[v].doneCriteria != [] {
      assert (u, v) in PlanEdges(S.g);
    }
  }

  /** In a run whose reports declare no origin, nothing is marked. */
  lemma {:induction false} UndeclaredIsClean(S: Session, d: Durable, i: nat)
    requires DurableOk(S, d) && TaintOk(S, d) && S.fork.None? && S.world == DeclaringWorld(None)
    requires RowsExact(S, d, d.origins) && i < |d.rows|
    ensures d.rows[i].envelope.taint == Clean
  {
    assert RowExact(S, d, d.origins, i);
    if d.rows[i].envelope.taint.Tainted? {
      var a :| SourceOf(S, d.origins, Order(S)[i], a);
      assert a in d.commits;
      var m :| 0 <= m < |d.commits| && d.commits[m] == a;
      DeclaredOrigin(S, d, None, m);
    }
  }

  /** A root that is executed takes the mark it declares. */
  lemma {:induction false} RootTakesMark(S: Session, d: Durable, origin: string)
    requires DurableOk(S, d) && TaintOk(S, d) && S.world == DeclaringWorld(Some(origin))
    requires d.rows != [] && CachedRow(S, 1).None? && Preds(S.g, Order(S)[0]) == {}
    ensures d.rows[0].envelope.taint == Tainted(origin)
  {
    assert FreshTaint(S, d, 0);
    DeclaredOrigin(S, d, Some(origin), 0);
    OutputOfRow(S, d, 0);
    assert Sorted({}) == [];
  }

  /** A two-stage session whose executor declares no origin completes with clean rows. */
  lemma {:induction false} CleanRun(S: Session) returns (d: Durable)
    requires TwoStages(S) && S.fork.None? && S.world == DeclaringWorld(None)
    ensures d == Run(S).0.durable && Run(S).1 == Ended(Completed, None) && DurableOk(S, d) && |d.commits| == 2
    ensures RowsExact(S, d, d.origins) && d.rows[1].envelope.taint == Clean
  {
    TwoStagesClear(S);
    var s := DeclaringRun(S, None);
    d := s.durable;
    TaintIsReachability(S);
    UndeclaredIsClean(S, d, 1);
  }

  /** The fork of such a session lost the first row, and its executor declares an origin. */
  ghost predicate LostRow(S: Session, F: Session, d: Durable, origin: string) {
    && TwoStages(F) && ForkOf(F, S, d, 0, 2) && F.world == DeclaringWorld(Some(origin))
    && CachedRow(F, 1).None? && CachedRow(F, 2).Some?
  }

  lemma {:induction false} LostRowRun(S: Session, F: Session, d: Durable, origin: string) returns (d': Durable)
    requires TwoStages(S) && DurableOk(S, d) && d.rows != [] && LostRow(S, F, d, origin)
    ensures d' == Run(F).0.durable && Run(F).1 == Ended(Completed, None)
    ensures DurableOk(F, d') && ReplayOk(F, d') && |d'.commits| == 2
    ensures d'.rows[0].envelope.taint == Tainted(origin)
  {
    ForkRowsFit(S, F, d, 0, 2);
    TwoStagesClear(F);
    var f := DeclaringRun(F, Some(origin));
    d' := f.durable;
    RootTakesMark(F, d', origin);
  }

  lemma {:induction false} TwoRows(S: Session, d: Durable)
    requires TwoStages(S) && DurableOk(S, d) && |d.commits| == 2
    ensures d.rows[0].node == FIRST && d.rows[1].node == SECOND && Edge(S.g, FIRST, SECOND)
  {
    assert RowOk(S, d, 0) && RowOk(S, d, 1);
    assert (FIRST, SECOND) in PlanEdges(S.g);
  }

  /** A tainted row, and the clean row of a successor. */
  ghost predicate LaunderedAt(F: Session, rows: seq<StoredCommit>, i: nat, j: nat) {
    && i < j < |rows| && Edge(F.g, rows[i].node, rows[j].node)
    && rows[i].envelope.taint.Tainted? && rows[j].envelope.taint.Clean?
  }

  lemma {:induction false} LostRowMarks(S: Session, F: Session, d: Durable, d': Durable, origin: string)
    requires LostRow(S, F, d, origin) && DurableOk(S, d) && DurableOk(F, d') && ReplayOk(F, d')
    requires |d.commits| == 2 && |d'.commits| == 2
    requires d.rows[1].envelope.taint == Clean && d'.rows[0].envelope.taint == Tainted(origin)
    ensures LaunderedAt(F, d'.rows, 0, 1)
  {
    SameEnvelope(S, F, d, d', 2, 1);
    TwoRows(F, d');
  }

  /** A mark was laundered in a run that completed. */
  ghost predicate Laundered(F: Session) {
    Run(F).1 == Ended(Completed, None) && exists i, j :: LaunderedAt(F, Run(F).0.durable.rows, i, j)
  }

  lemma {:induction false} LostRowLaunders(S: Session, F: Session, d: Durable, origin: string)
    requires TwoStages(S) && S.fork.None? && S.world == DeclaringWorld(None)
    requires d == Run(S).0.durable && LostRow(S, F, d, origin)
    ensures Laundered(F)
  {
    var _ := CleanRun(S);
    var d' := LostRowRun(S, F, d, origin);
    LostRowMarks(S, F, d, d', origin);
  }

  lemma {:induction false} LostRowForkFits(S: Session, d: Durable)
    requires S == CleanSession() && TwoStages(S) && DurableOk(S, d) && |d.commits| == 2
    ensures 2 in d.responses && LostRow(S, LostRowFork(d.responses[2]), d, "web")
  {
  }

  /**
   * Taint can be laundered by losing a row: a session completes with clean rows, its first
   * response row is lost, and in the fork the first stage, executed again, declares an
   * external origin. The fork completes with the first row tainted and the replayed row of
   * its successor clean.
   */
  lemma {:induction false} LostRowLaundersTaint() returns (S: Session, F: Session)
    ensures Compiled(S) && Compiled(F) && ForkOf(F, S, Run(S).0.durable, 0, 2)
    ensures Run(S).1 == Ended(Completed, None) && RowsExact(S, Run(S).0.durable, Run(S).0.durable.origins)
    ensures Laundered(F)
  {
    CleanSessionCompiles();
    S := CleanSession();
    var d := CleanRun(S);
    LostRowForkFits(S, d);
    F := LostRowFork(d.responses[2]);
    LostRowLaunders(S, F, d, "web");
  }
}
