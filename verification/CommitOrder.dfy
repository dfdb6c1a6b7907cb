/**
 * The commit order: all waves one after the other. Places in the order correspond to the
 * engine's cursor (wave, position), and every edge of the graph goes forward in it.
 */
module CommitOrder {
  import opened Core
  import opened Waves
  import opened RunModel

  /** The place in the order where wave w begins. */
  function StartOf(ws: seq<seq<NodeId>>, w: nat): nat
    requires w <= |ws|
    decreases w
  {
    if w == 0 then 0 else StartOf(ws, w - 1) + |ws[w - 1]|
  }

  lemma {:induction false} StartOfTail(ws: seq<seq<NodeId>>, w: nat)
    requires 0 < w <= |ws|
    ensures StartOf(ws, w) == |ws[0]| + StartOf(ws[1..], w - 1)
    decreases w
  {
    if w > 1 {
      StartOfTail(ws, w - 1);
    }
  }

  lemma {:induction false} StartOfMonotone(ws: seq<seq<NodeId>>, v: nat, w: nat)
    requires v < w <= |ws|
    ensures StartOf(ws, v) + |ws[v]| <= StartOf(ws, w)
    decreases w
  {
    if v < w - 1 {
      StartOfMonotone(ws, v, w - 1);
    }
  }

  lemma {:induction false} FlattenAt(ws: seq<seq<NodeId>>, w: nat, i: nat)
    requires w < |ws| && i < |ws[w]|
    ensures StartOf(ws, w) + i < |Flatten(ws)|
    ensures Flatten(ws)[StartOf(ws, w) + i] == ws[w][i]
    decreases |ws|
  {
    if w > 0 {
      FlattenAt(ws[1..], w - 1, i);
      StartOfTail(ws, w);
    }
  }

  lemma {:induction false} FlattenLength(ws: seq<seq<NodeId>>)
    ensures |Flatten(ws)| == StartOf(ws, |ws|)
    decreases |ws|
  {
    if ws != [] {
      FlattenLength(ws[1..]);
      StartOfTail(ws, |ws|);
    }
  }

  /** The wave of a place holds the place's node, and the flag tells whether it begins it. */
  lemma {:induction false} WaveAtSpec(ws: seq<seq<NodeId>>, k: nat)
    requires k < |Flatten(ws)|
    ensures var (w, first) := WaveAt(ws, k);
            && w < |ws| && StartOf(ws, w) <= k < StartOf(ws, w) + |ws[w]|
            && Flatten(ws)[k] == ws[w][k - StartOf(ws, w)]
            && (first <==> k == StartOf(ws, w))
    decreases |ws|
  {
    if k >= |ws[0]| {
      WaveAtSpec(ws[1..], k - |ws[0]|);
      var (w, first) := WaveAt(ws[1..], k - |ws[0]|);
      StartOfTail(ws, w + 1);
    }
  }

  lemma {:induction false} WaveAtUnique(ws: seq<seq<NodeId>>, k: nat, w: nat)
    requires w < |ws| && StartOf(ws, w) <= k < StartOf(ws, w) + |ws[w]|
    ensures k < |Flatten(ws)| && WaveAt(ws, k) == (w, k == StartOf(ws, w))
  {
    FlattenAt(ws, w, k - StartOf(ws, w));
    WaveAtSpec(ws, k);
    var (v, _) := WaveAt(ws, k);
    if v < w {
      StartOfMonotone(ws, v, w);
    } else if w < v {
      StartOfMonotone(ws, w, v);
    }
  }

  // ---------------------------------------------------------------- the engine's cursor

  /** The cursor stands at place |commits| of the order. */
  ghost predicate CursorOk(ws: seq<seq<NodeId>>, d: Durable) {
    && d.cursor <= |ws|
    && |d.commits| == StartOf(ws, d.cursor) + d.pos
    && (if d.cursor < |ws| then d.pos < |ws[d.cursor]| else d.pos == 0)
  }

  ghost predicate NonEmptyWaves(ws: seq<seq<NodeId>>) {
    forall i | 0 <= i < |ws| :: ws[i] != []
  }

  /** The node due by the order is the node due by the cursor. */
  lemma {:induction false} CursorDue(S: Session, d: Durable)
    requires CursorOk(S.waves, d)
    ensures |d.commits| < |Flatten(S.waves)| <==> d.cursor < |S.waves|
    ensures |d.commits| < |Flatten(S.waves)| ==>
              InOrder(S, d, Flatten(S.waves)[|d.commits|]) && WaveAt(S.waves, |d.commits|) == (d.cursor, d.pos == 0)
  {
    FlattenLength(S.waves);
    if d.cursor < |S.waves| {
      FlattenAt(S.waves, d.cursor, d.pos);
      WaveAtUnique(S.waves, |d.commits|, d.cursor);
    }
  }

  lemma {:induction false} CursorAdvances(S: Session, d: Durable, b: Boundary, p: Product)
    requires CursorOk(S.waves, d) && NonEmptyWaves(S.waves) && InOrder(S, d, b.node)
    ensures CursorOk(S.waves, CommitDurable(S, d, b, p))
  {
  }

  // ---------------------------------------------------------------- topological order

  lemma {:induction false} OrderPlace(g: Digraph, ws: seq<seq<NodeId>>, k: nat) returns (w: nat)
    requires k < |Flatten(ws)|
    ensures At(ws, w, Flatten(ws)[k]) && StartOf(ws, w) <= k < StartOf(ws, w) + |ws[w]|
    ensures Flatten(ws)[k] == ws[w][k - StartOf(ws, w)]
  {
    WaveAtSpec(ws, k);
    w := WaveAt(ws, k).0;
  }

  lemma {:induction false} OrderDistinct(g: Digraph, ws: seq<seq<NodeId>>, i: nat, j: nat)
    requires IsLevelling(g, {}, ws) && i < j < |Flatten(ws)|
    ensures Flatten(ws)[i] != Flatten(ws)[j]
  {
    var v := OrderPlace(g, ws, i);
    var w := OrderPlace(g, ws, j);
    if v == w {
      assert Distinct(ws[w]);
    }
  }

  lemma {:induction false} OrderMember(g: Digraph, ws: seq<seq<NodeId>>, n: NodeId) returns (k: nat)
    requires IsLevelling(g, {}, ws) && n in g.nodes
    ensures k < |Flatten(ws)| && Flatten(ws)[k] == n
  {
    var w := WaveIndex(ws, n);
    var i :| 0 <= i < |ws[w]| && ws[w][i] == n;
    FlattenAt(ws, w, i);
    k := StartOf(ws, w) + i;
  }

  lemma {:induction false} OrderInside(g: Digraph, ws: seq<seq<NodeId>>, k: nat)
    requires IsLevelling(g, {}, ws) && k < |Flatten(ws)|
    ensures Flatten(ws)[k] in g.nodes
  {
    var w := OrderPlace(g, ws, k);
  }

  /** The order lists every node exactly once. */
  lemma {:induction false} OrderListsNodes(g: Digraph, ws: seq<seq<NodeId>>)
    requires IsLevelling(g, {}, ws)
    ensures Distinct(Flatten(ws)) && SetOf(Flatten(ws)) == g.nodes
    ensures |Flatten(ws)| == |g.nodes|
  {
    var order := Flatten(ws);
    forall i, j | 0 <= i < j < |order| ensures order[i] != order[j] {
      OrderDistinct(g, ws, i, j);
    }
    forall n | n in order ensures n in g.nodes {
      var k :| 0 <= k < |order| && order[k] == n;
      OrderInside(g, ws, k);
    }
    forall n | n in g.nodes ensures n in order {
      var k := OrderMember(g, ws, n);
    }
    DistinctSize(order);
  }

  lemma {:induction false} DistinctSize<T>(s: seq<T>)
    requires Distinct(s)
    ensures |SetOf(s)| == |s|
    decreases |s|
  {
    if s != [] {
      var t := s[..|s| - 1];
      DistinctSize(t);
      SetOfSnoc(t, s[|s| - 1]);
      assert s == t + [s[|s| - 1]];
    }
  }

  /** Every edge goes forward in the order. */
  lemma {:induction false} EdgesGoForward(g: Digraph, ws: seq<seq<NodeId>>, i: nat, j: nat)
    requires IsLevelling(g, {}, ws) && i < |Flatten(ws)| && j < |Flatten(ws)|
    requires Edge(g, Flatten(ws)[i], Flatten(ws)[j])
    ensures i < j
  {
    var v := OrderPlace(g, ws, i);
    var w := OrderPlace(g, ws, j);
    assert Earlier(ws, w, Flatten(ws)[i]);
    StartOfMonotone(ws, v, w);
  }
}
