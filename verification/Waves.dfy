/**
 * Wave decomposition (crates/hesmos-orchestrator/src/waves.rs): Kahn levels with a seeded
 * order inside each level, and the depth-first search that names a cycle when Kahn stalls.
 * A wave is the list of its nodes in commit order; its index is its position.
 */
module Waves {
  import opened Core
  import opened Orders
  import opened Prng

  datatype Digraph = Digraph(nodes: set<NodeId>, succs: map<NodeId, set<NodeId>>)

  predicate Edge(g: Digraph, u: NodeId, v: NodeId) {
    u in g.succs && v in g.succs[u]
  }

  /** Both ends of every edge are nodes: validated before waves are built. */
  ghost predicate Closed(g: Digraph) {
    forall u, v | Edge(g, u, v) :: u in g.nodes && v in g.nodes
  }

  function Preds(g: Digraph, v: NodeId): set<NodeId> {
    set u | u in g.succs && v in g.succs[u]
  }

  function Succs(g: Digraph, u: NodeId): set<NodeId> {
    if u in g.succs then g.succs[u] else {}
  }

  // ---------------------------------------------------------------- paths and cycles

  ghost predicate Linked(g: Digraph, p: seq<NodeId>) {
    forall i | 0 <= i < |p| - 1 :: Edge(g, p[i], p[i + 1])
  }

  /** A nonempty walk inside the graph. */
  ghost predicate IsPath(g: Digraph, p: seq<NodeId>) {
    p != [] && SetOf(p) <= g.nodes && Linked(g, p)
  }

  /** Distinct nodes, each with an edge to the next and the last with one to the first. */
  ghost predicate IsCycle(g: Digraph, c: seq<NodeId>) {
    c != [] && SetOf(c) <= g.nodes && Distinct(c) && Linked(g, c) && Edge(g, c[|c| - 1], c[0])
  }

  ghost predicate Acyclic(g: Digraph) {
    forall c :: !IsCycle(g, c)
  }

  /** A numbering of the nodes that every edge increases. */
  ghost predicate Ranks(g: Digraph, rank: map<NodeId, int>) {
    && g.nodes <= rank.Keys
    && forall u, v | u in g.nodes && v in g.nodes && Edge(g, u, v) :: rank[u] < rank[v]
  }

  lemma {:induction false} RankGrows(g: Digraph, rank: map<NodeId, int>, p: seq<NodeId>, k: nat)
    requires Ranks(g, rank) && SetOf(p) <= g.nodes && Linked(g, p) && k < |p|
    ensures p[0] in rank && p[k] in rank && rank[p[0]] + k <= rank[p[k]]
    decreases k
  {
    assert p[0] in SetOf(p) && p[k] in SetOf(p);
    if k > 0 {
      RankGrows(g, rank, p, k - 1);
      assert Edge(g, p[k - 1], p[k - 1 + 1]);
      assert p[k - 1] in SetOf(p);
    }
  }

  lemma {:induction false} RankedIsAcyclic(g: Digraph, rank: map<NodeId, int>)
    requires Ranks(g, rank)
    ensures Acyclic(g)
  {
    forall c | IsCycle(g, c) ensures false {
      assert c[0] in SetOf(c) && c[|c| - 1] in SetOf(c);
      RankGrows(g, rank, c, |c| - 1);
    }
  }

  // ---------------------------------------------------------------- order inside a wave

  datatype Key = Key(draw: u64, node: NodeId)

  predicate KeyLess(a: Key, b: Key) {
    a.draw < b.draw || (a.draw == b.draw && Less(a.node, b.node))
  }

  function InsertKey(k: Key, ks: seq<Key>): seq<Key> {
    if ks == [] || KeyLess(k, ks[0]) then [k] + ks else [ks[0]] + InsertKey(k, ks[1..])
  }

  /** The keys in ascending order of draw, then of node. */
  function SortKeys(ks: seq<Key>): seq<Key> {
    if ks == [] then [] else InsertKey(ks[0], SortKeys(ks[1..]))
  }

  /** The next n draws. */
  function Draws(state: u64, n: nat): (ds: seq<u64>)
    ensures |ds| == n
  {
    if n == 0 then [] else Draws(state, n - 1) + [Draw(state, n)]
  }

  /** Each node of a sorted level with its draw. */
  function Keys(level: seq<NodeId>, ds: seq<u64>): (ks: seq<Key>)
    requires |ds| == |level|
    ensures |ks| == |level|
  {
    seq(|level|, i requires 0 <= i < |level| => Key(ds[i], level[i]))
  }

  function NodesOf(ks: seq<Key>): (ns: seq<NodeId>)
    ensures |ns| == |ks|
  {
    seq(|ks|, i requires 0 <= i < |ks| => ks[i].node)
  }

  /** A level in its commit order, given one draw per node in sorted order. */
  function WaveOf(level: set<NodeId>, ds: seq<u64>): seq<NodeId>
    requires |ds| == |level|
  {
    SortedSpec(level);
    NodesOf(SortKeys(Keys(Sorted(level), ds)))
  }

  ghost predicate DrawsAscend(ks: seq<Key>) {
    forall i, j | 0 <= i < j < |ks| :: ks[i].draw < ks[j].draw
  }

  ghost predicate DrawsDiffer(ks: seq<Key>) {
    forall i, j | 0 <= i < j < |ks| :: ks[i].draw != ks[j].draw
  }

  lemma {:induction false} InsertKeyElements(k: Key, ks: seq<Key>)
    ensures multiset(InsertKey(k, ks)) == multiset(ks) + multiset{k}
    decreases |ks|
  {
    if ks != [] && !KeyLess(k, ks[0]) {
      InsertKeyElements(k, ks[1..]);
      assert ks == [ks[0]] + ks[1..];
    }
  }

  lemma {:induction false} InsertKeySpec(k: Key, ks: seq<Key>)
    requires DrawsAscend(ks) && forall i | 0 <= i < |ks| :: ks[i].draw != k.draw
    ensures DrawsAscend(InsertKey(k, ks))
    decreases |ks|
  {
    if ks != [] && !KeyLess(k, ks[0]) {
      var rest := InsertKey(k, ks[1..]);
      InsertKeySpec(k, ks[1..]);
      InsertKeyElements(k, ks[1..]);
      forall j | 0 <= j < |rest| ensures ks[0].draw < rest[j].draw {
        assert rest[j] in multiset(rest);
        assert rest[j] in ks[1..] || rest[j] == k;
      }
    }
  }

  lemma {:induction false} DrawStaysNew(k: Key, ks: seq<Key>, sorted: seq<Key>)
    requires multiset(sorted) == multiset(ks) && forall j | 0 <= j < |ks| :: k.draw != ks[j].draw
    ensures forall i | 0 <= i < |sorted| :: sorted[i].draw != k.draw
  {
    forall i | 0 <= i < |sorted| ensures sorted[i].draw != k.draw {
      assert sorted[i] in multiset(sorted);
      assert sorted[i] in multiset(ks);
    }
  }

  lemma {:induction false} HeadAndRest(ks: seq<Key>)
    requires ks != []
    ensures multiset(ks) == multiset{ks[0]} + multiset(ks[1..])
  {
    assert ks == [ks[0]] + ks[1..];
  }

  lemma {:induction false} SortKeysSpec(ks: seq<Key>)
    requires DrawsDiffer(ks)
    ensures DrawsAscend(SortKeys(ks))
    ensures multiset(SortKeys(ks)) == multiset(ks)
    decreases |ks|
  {
    if ks != [] {
      var rest := SortKeys(ks[1..]);
      SortKeysSpec(ks[1..]);
      DrawStaysNew(ks[0], ks[1..], rest);
      InsertKeySpec(ks[0], rest);
      InsertKeyElements(ks[0], rest);
      HeadAndRest(ks);
    }
  }

  lemma {:induction false} TwoDrawsDiffer(state: u64, n: nat, i: nat, j: nat)
    requires i < j < n < TWO64
    ensures Draws(state, n)[i] != Draws(state, n)[j]
  {
    DrawsAt(state, n, i);
    DrawsAt(state, n, j);
    DrawsAreDistinct(state, i + 1, j + 1);
  }

  lemma {:induction false} DrawsAt(state: u64, n: nat, i: nat)
    requires i < n
    ensures Draws(state, n)[i] == Draw(state, i + 1)
    decreases n
  {
    if i < n - 1 {
      DrawsAt(state, n - 1, i);
    }
  }

  /** The next n draws are pairwise distinct. */
  lemma {:induction false} DrawsDistinct(state: u64, n: nat)
    requires n < TWO64
    ensures Distinct(Draws(state, n))
  {
    forall i, j | 0 <= i < j < n ensures Draws(state, n)[i] != Draws(state, n)[j] {
      TwoDrawsDiffer(state, n, i, j);
    }
  }

  /** x is listed in the sorted level at the place whose draw is d. */
  ghost predicate DrawnAs(level: seq<NodeId>, ds: seq<u64>, x: NodeId, d: u64) {
    exists a :: 0 <= a < |level| == |ds| && level[a] == x && ds[a] == d
  }

  lemma {:induction false} SortedElement(ks: seq<Key>, i: nat) returns (a: nat)
    requires DrawsDiffer(ks) && i < |SortKeys(ks)|
    ensures a < |ks| && ks[a] == SortKeys(ks)[i]
  {
    SortKeysSpec(ks);
    var k := SortKeys(ks)[i];
    assert k in multiset(SortKeys(ks));
    assert k in multiset(ks);
    a :| a < |ks| && ks[a] == k;
  }

  /**
   * The order of a wave: every node of the level once, by strictly ascending draw, each
   * node's draw being the one of its place in the sorted level. The node-id tie-break of
   * the sort never decides.
   */
  lemma {:induction false} WaveOfSpec(level: set<NodeId>, ds: seq<u64>) returns (draws: seq<u64>)
    requires |ds| == |level| && Distinct(ds)
    ensures Distinct(WaveOf(level, ds)) && SetOf(WaveOf(level, ds)) == level
    ensures |WaveOf(level, ds)| == |level| == |draws|
    ensures forall i | 0 <= i < |draws| :: DrawnAs(Sorted(level), ds, WaveOf(level, ds)[i], draws[i])
    ensures forall i, j | 0 <= i < j < |draws| :: draws[i] < draws[j]
  {
    SortedSpec(level);
    var s := Sorted(level);
    var ks := Keys(s, ds);
    var sorted := SortKeys(ks);
    var w := WaveOf(level, ds);
    SortKeysSpec(ks);
    SameSize(sorted, ks);
    draws := seq(|sorted|, i requires 0 <= i < |sorted| => sorted[i].draw);
    forall i | 0 <= i < |draws| ensures DrawnAs(s, ds, w[i], draws[i]) {
      var a := SortedElement(ks, i);
      assert s[a] == w[i] && draws[i] == ds[a];
    }
    WaveOfElements(level, ds);
    AscendingIsDistinct(s, ds, w, draws);
  }

  lemma {:induction false} AscendingIsDistinct(level: seq<NodeId>, ds: seq<u64>, w: seq<NodeId>, draws: seq<u64>)
    requires Distinct(level) && |w| == |draws|
    requires forall i | 0 <= i < |draws| :: DrawnAs(level, ds, w[i], draws[i])
    requires forall i, j | 0 <= i < j < |draws| :: draws[i] < draws[j]
    ensures Distinct(w)
  {
    forall i, j | 0 <= i < j < |w| ensures w[i] != w[j] {
      DrawsTellApart(level, ds, w[i], draws[i], w[j], draws[j]);
    }
  }

  lemma {:induction false} WaveOfElements(level: set<NodeId>, ds: seq<u64>)
    requires |ds| == |level| && Distinct(ds)
    ensures SetOf(WaveOf(level, ds)) == level
  {
    SortedSpec(level);
    var s := Sorted(level);
    var ks := Keys(s, ds);
    var sorted := SortKeys(ks);
    SortKeysSpec(ks);
    forall k ensures k in sorted <==> k in ks {
      assert k in multiset(sorted) <==> k in multiset(ks);
    }
    NodesOfElements(sorted, ks, WaveOf(level, ds), s);
  }

  lemma {:induction false} NodesOfElements(sorted: seq<Key>, ks: seq<Key>, w: seq<NodeId>, s: seq<NodeId>)
    requires |sorted| == |w| && |ks| == |s|
    requires forall i | 0 <= i < |w| :: w[i] == sorted[i].node
    requires forall i | 0 <= i < |s| :: s[i] == ks[i].node
    requires forall k :: k in sorted <==> k in ks
    ensures SetOf(w) == SetOf(s)
  {
    forall n | n in w ensures n in s {
      var i :| 0 <= i < |w| && w[i] == n;
      assert sorted[i] in ks;
    }
    forall n | n in s ensures n in w {
      var i :| 0 <= i < |s| && s[i] == n;
      assert ks[i] in sorted;
    }
  }

  /** Nodes with different draws differ. */
  lemma {:induction false} DrawsTellApart(level: seq<NodeId>, ds: seq<u64>, x: NodeId, d: u64, y: NodeId, e: u64)
    requires Distinct(level) && DrawnAs(level, ds, x, d) && DrawnAs(level, ds, y, e) && d != e
    ensures x != y
  {
  }

  lemma {:induction false} SameSize(a: seq<Key>, b: seq<Key>)
    requires multiset(a) == multiset(b)
    ensures |a| == |b|
  {
    assert |multiset(a)| == |a| && |multiset(b)| == |b|;
  }

  // ---------------------------------------------------------------- Kahn levels

  /** The nodes not done whose predecessors all are. */
  function Level(g: Digraph, done: set<NodeId>): set<NodeId> {
    set n | n in g.nodes - done && Preds(g, n) <= done
  }

  /** The waves of the nodes outside `done`, or nothing when no level can be formed. */
  function WavesFrom(g: Digraph, done: set<NodeId>, state: u64): Option<seq<seq<NodeId>>>
    decreases |g.nodes - done|
  {
    if g.nodes <= done then Some([]) else
      var level := Level(g, done);
      if level == {} then None else
        LevelShrinks(g, done);
        match WavesFrom(g, done + level, StateAt(state, |level|))
        case None => None
        case Some(rest) => Some([WaveOf(level, Draws(state, |level|))] + rest)
  }

  lemma {:induction false} LevelShrinks(g: Digraph, done: set<NodeId>)
    requires Level(g, done) != {}
    ensures |g.nodes - (done + Level(g, done))| + |Level(g, done)| == |g.nodes - done|
  {
    var level := Level(g, done);
    assert g.nodes - done == (g.nodes - (done + level)) + level;
  }

  ghost predicate At(ws: seq<seq<NodeId>>, i: int, n: NodeId) {
    0 <= i < |ws| && n in ws[i]
  }

  ghost predicate Earlier(ws: seq<seq<NodeId>>, j: int, n: NodeId) {
    exists i :: i < j && At(ws, i, n)
  }

  ghost predicate HasPredIn(g: Digraph, wave: seq<NodeId>, v: NodeId) {
    exists u :: u in wave && Edge(g, u, v)
  }

  /** What a list of waves for the nodes outside `done` must satisfy. */
  ghost predicate IsLevelling(g: Digraph, done: set<NodeId>, ws: seq<seq<NodeId>>) {
    // nonempty waves without repetition
    && (forall i | 0 <= i < |ws| :: ws[i] != [] && Distinct(ws[i]))
    // that partition the remaining nodes
    && (forall i, n | At(ws, i, n) :: n in g.nodes && n !in done)
    && (forall n | n in g.nodes && n !in done :: exists i :: At(ws, i, n))
    && (forall i, j, n | At(ws, i, n) && At(ws, j, n) :: i == j)
    // every predecessor is done or strictly earlier
    && (forall j, u, v | At(ws, j, v) && Edge(g, u, v) :: u in done || Earlier(ws, j, u))
    // and past the first wave one predecessor is exactly one wave earlier
    && (forall j, v | At(ws, j, v) && j > 0 :: HasPredIn(g, ws[j - 1], v))
  }

  lemma {:induction false} WavesFromIsLevelling(g: Digraph, done: set<NodeId>, state: u64)
    requires Closed(g) && |g.nodes| < TWO64
    requires WavesFrom(g, done, state).Some?
    ensures IsLevelling(g, done, WavesFrom(g, done, state).value)
    decreases |g.nodes - done|
  {
    if !(g.nodes <= done) {
      var level := Level(g, done);
      LevelShrinks(g, done);
      SubsetSize(level, g.nodes);
      var ds := Draws(state, |level|);
      DrawsDistinct(state, |level|);
      var _ := WaveOfSpec(level, ds);
      var first := WaveOf(level, ds);
      var rest := WavesFrom(g, done + level, StateAt(state, |level|)).value;
      WavesFromIsLevelling(g, done + level, StateAt(state, |level|));
      assert forall n :: n in first <==> n in SetOf(first);
      LevellingCons(g, done, first, rest);
    }
  }

  lemma {:induction false} SubsetSize(a: set<NodeId>, b: set<NodeId>)
    requires a <= b
    ensures |a| <= |b|
  {
    assert b == a + (b - a);
  }

  lemma {:induction false} LevellingCons(g: Digraph, done: set<NodeId>, first: seq<NodeId>, rest: seq<seq<NodeId>>)
    requires first != [] && Distinct(first)
    requires forall n :: n in first <==> n in Level(g, done)
    requires IsLevelling(g, done + Level(g, done), rest)
    requires Closed(g)
    ensures IsLevelling(g, done, [first] + rest)
  {
    var level := Level(g, done);
    var ws := [first] + rest;
    forall i, n ensures At(ws, i, n) <==> (i == 0 && n in level) || At(rest, i - 1, n) {
    }
    forall n | n in g.nodes && n !in done ensures exists i :: At(ws, i, n) {
      if n in level {
        assert At(ws, 0, n);
      } else {
        var i :| At(rest, i, n);
        assert At(ws, i + 1, n);
      }
    }
    forall j, u, v | At(ws, j, v) && Edge(g, u, v) ensures u in done || Earlier(ws, j, u) {
      EarlierCons(g, done, first, rest, j, u, v);
    }
    forall j, v | At(ws, j, v) && j > 0 ensures HasPredIn(g, ws[j - 1], v) {
      assert At(rest, j - 1, v);
      if j == 1 {
        assert v !in level;
        var u :| u in Preds(g, v) && u !in done;
        assert Edge(g, u, v);
        assert !Earlier(rest, 0, u);
        assert u in ws[0] && Edge(g, u, v);
      } else {
        assert HasPredIn(g, rest[j - 2], v);
      }
    }
  }

  lemma {:induction false} EarlierCons(g: Digraph, done: set<NodeId>, first: seq<NodeId>, rest: seq<seq<NodeId>>,
                                       j: int, u: NodeId, v: NodeId)
    requires forall n :: n in first <==> n in Level(g, done)
    requires IsLevelling(g, done + Level(g, done), rest)
    requires At([first] + rest, j, v) && Edge(g, u, v)
    ensures u in done || Earlier([first] + rest, j, u)
  {
    var ws := [first] + rest;
    assert u in Preds(g, v);
    if j > 0 {
      assert At(rest, j - 1, v);
      if u in Level(g, done) {
        assert At(ws, 0, u);
      } else if u !in done {
        assert Earlier(rest, j - 1, u);
        var i :| i < j - 1 && At(rest, i, u);
        assert At(ws, i + 1, u);
      }
    }
  }

  /** Where a node sits in a list of waves. */
  ghost function WaveIndex(ws: seq<seq<NodeId>>, n: NodeId): nat
    requires exists i :: At(ws, i, n)
    ensures At(ws, WaveIndex(ws, n), n)
  {
    var i :| At(ws, i, n);
    i
  }

  ghost function WaveRank(g: Digraph, ws: seq<seq<NodeId>>): map<NodeId, int>
    requires IsLevelling(g, {}, ws)
  {
    map n | n in g.nodes :: WaveIndex(ws, n)
  }

  /** Every edge goes to a strictly later wave. */
  lemma {:induction false} EdgesGoLater(g: Digraph, ws: seq<seq<NodeId>>)
    requires Closed(g) && IsLevelling(g, {}, ws)
    ensures Ranks(g, WaveRank(g, ws))
  {
    forall u, v | u in g.nodes && v in g.nodes && Edge(g, u, v)
      ensures WaveIndex(ws, u) < WaveIndex(ws, v)
    {
      assert Earlier(ws, WaveIndex(ws, v), u);
    }
  }

  /** A path with `len` edges ends at n and no path with more does. */
  ghost predicate LongestPathLength(g: Digraph, n: NodeId, len: nat) {
    && (exists p :: IsPath(g, p) && p[|p| - 1] == n && |p| == len + 1)
    && (forall p | IsPath(g, p) && p[|p| - 1] == n :: |p| <= len + 1)
  }

  lemma {:induction false} PathOfIndexLength(g: Digraph, ws: seq<seq<NodeId>>, j: nat, n: NodeId)
    returns (p: seq<NodeId>)
    requires IsLevelling(g, {}, ws) && At(ws, j, n)
    ensures IsPath(g, p) && p[|p| - 1] == n && |p| == j + 1
    decreases j
  {
    if j == 0 {
      p := [n];
      SetOfCons(n, []);
      assert [n] == [n] + [];
    } else {
      assert HasPredIn(g, ws[j - 1], n);
      var u :| u in ws[j - 1] && Edge(g, u, n);
      assert At(ws, j - 1, u);
      var q := PathOfIndexLength(g, ws, j - 1, u);
      p := q + [n];
      PathSnoc(g, q, n);
    }
  }

  lemma {:induction false} PathSnoc(g: Digraph, q: seq<NodeId>, n: NodeId)
    requires IsPath(g, q) && n in g.nodes && Edge(g, q[|q| - 1], n)
    ensures IsPath(g, q + [n])
  {
    var p := q + [n];
    SetOfSnoc(q, n);
    forall i | 0 <= i < |p| - 1 ensures Edge(g, p[i], p[i + 1]) {
      if i < |q| - 1 {
        assert Edge(g, q[i], q[i + 1]);
      }
    }
  }

  /** The wave index of a node is the length of the longest path that ends at it. */
  lemma {:induction false} WaveIndexIsLongestPath(g: Digraph, ws: seq<seq<NodeId>>, j: nat, n: NodeId)
    requires Closed(g) && IsLevelling(g, {}, ws) && At(ws, j, n)
    ensures LongestPathLength(g, n, j)
  {
    var p := PathOfIndexLength(g, ws, j, n);
    EdgesGoLater(g, ws);
    assert WaveIndex(ws, n) == j;
    forall q | IsPath(g, q) && q[|q| - 1] == n ensures |q| <= j + 1 {
      RankGrows(g, WaveRank(g, ws), q, |q| - 1);
      assert q[0] in SetOf(q) && n in SetOf(q);
    }
  }

  // ---------------------------------------------------------------- stalls are cycles

  /** A choice of a predecessor inside r for every node of r. */
  ghost predicate Unfounded(g: Digraph, r: set<NodeId>, up: map<NodeId, NodeId>) {
    && r <= g.nodes && r <= up.Keys
    && forall v {:trigger up[v]} | v in r :: up[v] in r && Edge(g, up[v], v)
  }

  /** Walking predecessors inside an unfounded set ends in a cycle. */
  lemma {:induction false} UnfoundedHasCycle(g: Digraph, r: set<NodeId>, up: map<NodeId, NodeId>, p: seq<NodeId>)
    requires Unfounded(g, r, up)
    requires p != [] && SetOf(p) <= r && Distinct(p) && Linked(g, p)
    ensures !Acyclic(g)
    decreases |r - SetOf(p)|
  {
    assert p[0] in SetOf(p);
    assert p[0] in r;
    var u := up[p[0]];
    if u in p {
      CloseCycle(g, r, p, u);
    } else {
      SetOfCons(u, p);
      Shrinks(r, SetOf(p), u);
      LinkedCons(g, u, p);
      DistinctCons(u, p);
      UnfoundedHasCycle(g, r, up, [u] + p);
    }
  }

  lemma {:induction false} DistinctCons(u: NodeId, p: seq<NodeId>)
    requires Distinct(p) && u !in p
    ensures Distinct([u] + p)
  {
  }

  lemma {:induction false} Shrinks(r: set<NodeId>, s: set<NodeId>, u: NodeId)
    requires u in r && u !in s
    ensures |r - ({u} + s)| < |r - s|
  {
    assert r - s == (r - ({u} + s)) + {u};
  }

  lemma {:induction false} CloseCycle(g: Digraph, r: set<NodeId>, p: seq<NodeId>, u: NodeId)
    requires r <= g.nodes && SetOf(p) <= r && Distinct(p) && Linked(g, p)
    requires u in p && Edge(g, u, p[0])
    ensures !Acyclic(g)
  {
    var k :| 0 <= k < |p| && p[k] == u;
    var c := p[..k + 1];
    assert forall x | x in SetOf(c) :: x in SetOf(p);
    assert IsCycle(g, c);
  }

  lemma {:induction false} LinkedCons(g: Digraph, u: NodeId, p: seq<NodeId>)
    requires Linked(g, p) && p != [] && Edge(g, u, p[0])
    ensures Linked(g, [u] + p)
  {
    var q := [u] + p;
    forall i | 0 <= i < |q| - 1 ensures Edge(g, q[i], q[i + 1]) {
      if i > 0 {
        assert Edge(g, p[i - 1], p[i - 1 + 1]);
      }
    }
  }

  ghost function StalledPred(g: Digraph, done: set<NodeId>, v: NodeId): (u: NodeId)
    requires Closed(g) && Level(g, done) == {} && v in g.nodes && v !in done
    ensures u in g.nodes - done && Edge(g, u, v)
  {
    assert v !in Level(g, done);
    var u :| u in Preds(g, v) && u !in done;
    assert Edge(g, u, v);
    u
  }

  lemma {:induction false} StallIsCycle(g: Digraph, done: set<NodeId>)
    requires Closed(g) && !(g.nodes <= done) && Level(g, done) == {}
    ensures !Acyclic(g)
  {
    var r := g.nodes - done;
    var up := map v | v in r :: StalledPred(g, done, v);
    var n :| n in g.nodes && n !in done;
    SetOfCons(n, []);
    assert [n] == [n] + [];
    UnfoundedHasCycle(g, r, up, [n]);
  }

  lemma {:induction false} NoneMeansCycle(g: Digraph, done: set<NodeId>, state: u64)
    requires Closed(g) && WavesFrom(g, done, state).None?
    ensures !Acyclic(g)
    decreases |g.nodes - done|
  {
    var level := Level(g, done);
    if level == {} {
      StallIsCycle(g, done);
    } else {
      LevelShrinks(g, done);
      NoneMeansCycle(g, done + level, StateAt(state, |level|));
    }
  }

  /** Waves exist exactly for acyclic graphs. */
  lemma {:induction false} WavesExistIffAcyclic(g: Digraph, state: u64)
    requires Closed(g) && |g.nodes| < TWO64
    ensures WavesFrom(g, {}, state).Some? <==> Acyclic(g)
  {
    if WavesFrom(g, {}, state).Some? {
      WavesFromIsLevelling(g, {}, state);
      EdgesGoLater(g, WavesFrom(g, {}, state).value);
      RankedIsAcyclic(g, WaveRank(g, WavesFrom(g, {}, state).value));
    } else {
      NoneMeansCycle(g, {}, state);
    }
  }

  // ---------------------------------------------------------------- depth-first search

  datatype Color = InProgress | Done

  datatype Search = Search(color: map<NodeId, Color>, path: seq<NodeId>)

  /** The first place of a node in the path, or the start. */
  function Position(path: seq<NodeId>, node: NodeId): (i: nat)
    ensures i <= |path|
    ensures node in path ==> i < |path| && path[i] == node
  {
    if path == [] || path[0] == node then 0
    else if node in path then Position(path[1..], node) + 1
    else 0
  }

  function Pop(path: seq<NodeId>): seq<NodeId> {
    if path == [] then [] else path[..|path| - 1]
  }

  predicate Searchable(g: Digraph, st: Search) {
    st.color.Keys <= g.nodes
  }

  /** One call of the search: whether it met a node in progress, and the state it leaves. */
  function Visit(g: Digraph, st: Search, node: NodeId): (r: (bool, Search))
    requires Closed(g) && Searchable(g, st) && node in g.nodes
    ensures Searchable(g, r.1) && st.color.Keys <= r.1.color.Keys
    decreases |g.nodes - st.color.Keys|, 0, 0
  {
    if node in st.color then
      if st.color[node] == Done then (false, st)
      else (true, st.(path := st.path[Position(st.path, node)..]))
    else
      EnterShrinks(g, st.color, node);
      SuccsInside(g, node);
      var r := VisitAll(g, Search(st.color[node := InProgress], st.path + [node]), Sorted(Succs(g, node)));
      if r.0 then r else (false, Search(r.1.color[node := Done], Pop(r.1.path)))
  }

  /** The calls for the successors of a node, in order, until one meets a node in progress. */
  function VisitAll(g: Digraph, st: Search, targets: seq<NodeId>): (r: (bool, Search))
    requires Closed(g) && Searchable(g, st) && SetOf(targets) <= g.nodes
    ensures Searchable(g, r.1) && st.color.Keys <= r.1.color.Keys
    decreases |g.nodes - st.color.Keys|, 1, |targets|
  {
    if targets == [] then (false, st) else
      assert targets[0] in SetOf(targets);
      var r := Visit(g, st, targets[0]);
      if r.0 then r else
        FewerLeft(g.nodes, st.color.Keys, r.1.color.Keys);
        VisitAll(g, r.1, targets[1..])
  }

  lemma {:induction false} SuccsInside(g: Digraph, node: NodeId)
    requires Closed(g)
    ensures SetOf(Sorted(Succs(g, node))) <= g.nodes
  {
    SortedSpec(Succs(g, node));
    assert forall v | v in Succs(g, node) :: Edge(g, node, v);
  }

  /**
   * The search state: the path is a chain of exactly the nodes in progress, and the
   * finished nodes are numbered so that every edge out of one goes to a smaller number.
   */
  ghost predicate Consistent(g: Digraph, color: map<NodeId, Color>, path: seq<NodeId>, finish: map<NodeId, int>) {
    && color.Keys <= g.nodes
    && Distinct(path) && Linked(g, path)
    && (forall n :: n in path <==> n in color && color[n] == InProgress)
    && (forall n :: n in finish <==> n in color && color[n] == Done)
    && (forall n | n in finish :: finish[n] < |finish|)
    && (forall u, v | u in finish && Edge(g, u, v) :: v in finish && finish[v] < finish[u])
  }

  ghost predicate MayVisit(g: Digraph, path: seq<NodeId>, node: NodeId) {
    path != [] ==> Edge(g, path[|path| - 1], node)
  }

  /** First visit: the node is coloured in progress and joins the path. */
  lemma {:induction false} Enter(g: Digraph, color: map<NodeId, Color>, path: seq<NodeId>, finish: map<NodeId, int>,
                                 node: NodeId)
    requires Consistent(g, color, path, finish) && MayVisit(g, path, node)
    requires node in g.nodes && node !in color
    ensures Consistent(g, color[node := InProgress], path + [node], finish)
  {
    var c, p := color[node := InProgress], path + [node];
    forall n ensures n in p <==> n in c && c[n] == InProgress {
      assert n in p <==> n in path || n == node;
    }
    forall i | 0 <= i < |p| - 1 ensures Edge(g, p[i], p[i + 1]) {
      if i < |path| - 1 {
        assert Edge(g, path[i], path[i + 1]);
      }
    }
    assert node !in path;
  }

  lemma {:induction false} EnterShrinks(g: Digraph, color: map<NodeId, Color>, node: NodeId)
    requires color.Keys <= g.nodes && node in g.nodes && node !in color
    ensures |g.nodes - color[node := InProgress].Keys| < |g.nodes - color.Keys|
  {
    assert g.nodes - color.Keys == (g.nodes - color[node := InProgress].Keys) + {node};
  }

  /** All successors are finished: so is the node. */
  lemma {:induction false} Leave(g: Digraph, color: map<NodeId, Color>, path: seq<NodeId>, finish: map<NodeId, int>,
                                 node: NodeId)
    requires Consistent(g, color, path + [node], finish)
    requires forall v | Edge(g, node, v) :: v in finish
    ensures Consistent(g, color[node := Done], path, finish[node := |finish|])
  {
    var c, f := color[node := Done], finish[node := |finish|];
    assert node in path + [node];
    assert node !in finish;
    assert |f| == |finish| + 1;
    forall n ensures n in path <==> n in c && c[n] == InProgress {
      assert n in path + [node] <==> n in path || n == node;
      if n in path {
        var i :| 0 <= i < |path| && path[i] == n;
        assert (path + [node])[i] == n && (path + [node])[|path|] == node;
      }
    }
    forall i | 0 <= i < |path| - 1 ensures Edge(g, path[i], path[i + 1]) {
      assert Edge(g, (path + [node])[i], (path + [node])[i + 1]);
    }
    forall i, j | 0 <= i < j < |path| ensures path[i] != path[j] {
      assert (path + [node])[i] != (path + [node])[j];
    }
  }

  /** What the colour of a node says about the path and the numbering. */
  lemma {:induction false} ColorTells(g: Digraph, st: Search, finish: map<NodeId, int>, node: NodeId)
    requires Consistent(g, st.color, st.path, finish) && node in st.color
    ensures st.color[node] == InProgress ==> node in st.path
    ensures st.color[node] == Done ==> node in finish
    ensures Distinct(st.path) && Linked(g, st.path) && forall n | n in st.path :: n in st.color
  {
  }

  lemma {:induction false} Revisited(g: Digraph, st: Search, node: NodeId)
    requires Closed(g) && Searchable(g, st) && node in g.nodes && node in st.color
    ensures Visit(g, st, node) == if st.color[node] == Done then (false, st)
                                  else (true, st.(path := st.path[Position(st.path, node)..]))
  {
  }

  lemma {:induction false} RevisitSpec(g: Digraph, st: Search, node: NodeId)
    requires Closed(g) && Searchable(g, st) && node in g.nodes && node in st.color && MayVisit(g, st.path, node)
    requires Distinct(st.path) && Linked(g, st.path) && forall n | n in st.path :: n in st.color
    requires st.color[node] == InProgress ==> node in st.path
    ensures var (hit, st') := Visit(g, st, node);
            if hit then IsCycle(g, st'.path) else st' == st && st.color[node] == Done
  {
    Revisited(g, st, node);
    if st.color[node] == InProgress {
      CycleFrom(g, st.color.Keys, st.path, Position(st.path, node));
    }
  }

  /**
   * Soundness and completeness of one call: a hit leaves a genuine cycle as the path; a miss
   * restores the path and finishes the node, with a finishing numbering as the witness.
   */
  lemma {:induction false} VisitSpec(g: Digraph, st: Search, finish: map<NodeId, int>, node: NodeId)
    returns (finish': map<NodeId, int>)
    requires Closed(g) && node in g.nodes && Searchable(g, st)
    requires Consistent(g, st.color, st.path, finish) && MayVisit(g, st.path, node)
    ensures var (hit, st') := Visit(g, st, node);
            if hit then IsCycle(g, st'.path)
            else st'.path == st.path && Consistent(g, st'.color, st'.path, finish')
                 && node in finish' && finish.Keys <= finish'.Keys
    decreases |g.nodes - st.color.Keys|, 0, 0
  {
    finish' := finish;
    if node in st.color {
      ColorTells(g, st, finish, node);
      RevisitSpec(g, st, node);
    } else {
      EnterShrinks(g, st.color, node);
      SuccsInside(g, node);
      Enter(g, st.color, st.path, finish, node);
      var entered := Search(st.color[node := InProgress], st.path + [node]);
      var targets := Sorted(Succs(g, node));
      TargetsAreSuccs(g, node);
      var f := VisitAllSpec(g, entered, finish, node, targets);
      var (hit, st') := VisitAll(g, entered, targets);
      if !hit {
        Leave(g, st'.color, st.path, f, node);
        finish' := f[node := |f|];
      }
    }
  }

  lemma {:induction false} TargetsAreSuccs(g: Digraph, node: NodeId)
    ensures forall v :: v in Sorted(Succs(g, node)) <==> Edge(g, node, v)
  {
    SortedSpec(Succs(g, node));
  }

  lemma {:induction false} VisitAllSpec(g: Digraph, st: Search, finish: map<NodeId, int>, node: NodeId,
                                        targets: seq<NodeId>)
    returns (finish': map<NodeId, int>)
    requires Closed(g) && Searchable(g, st) && SetOf(targets) <= g.nodes
    requires Consistent(g, st.color, st.path, finish)
    requires st.path != [] && st.path[|st.path| - 1] == node
    requires forall v | v in targets :: Edge(g, node, v)
    ensures var (hit, st') := VisitAll(g, st, targets);
            if hit then IsCycle(g, st'.path)
            else st'.path == st.path && Consistent(g, st'.color, st'.path, finish')
                 && (forall v | v in targets :: v in finish') && finish.Keys <= finish'.Keys
    decreases |g.nodes - st.color.Keys|, 1, |targets|
  {
    finish' := finish;
    if targets != [] {
      assert targets[0] in SetOf(targets);
      assert MayVisit(g, st.path, targets[0]);
      var f := VisitSpec(g, st, finish, targets[0]);
      var (hit, st') := Visit(g, st, targets[0]);
      if !hit {
        FewerLeft(g.nodes, st.color.Keys, st'.color.Keys);
        finish' := VisitAllSpec(g, st', f, node, targets[1..]);
        assert forall v | v in targets :: v == targets[0] || v in targets[1..];
      }
    }
  }

  /** The search over all start nodes in order. */
  function SearchFrom(g: Digraph, st: Search, starts: seq<NodeId>): Option<seq<NodeId>>
    requires Closed(g) && Searchable(g, st) && SetOf(starts) <= g.nodes
    decreases |starts|
  {
    if starts == [] then None else
      assert starts[0] in SetOf(starts);
      var r := Visit(g, st, starts[0]);
      if r.0 then Some(r.1.path) else SearchFrom(g, r.1.(path := []), starts[1..])
  }

  lemma {:induction false} SearchFromSpec(g: Digraph, st: Search, finish: map<NodeId, int>, starts: seq<NodeId>)
    requires Closed(g) && Searchable(g, st) && SetOf(starts) <= g.nodes
    requires Consistent(g, st.color, st.path, finish) && st.path == []
    requires g.nodes <= finish.Keys + SetOf(starts)
    ensures match SearchFrom(g, st, starts)
            case Some(c) => IsCycle(g, c)
            case None => Acyclic(g)
    decreases |starts|
  {
    if starts == [] {
      FinishedIsAcyclic(g, st.color, finish);
    } else {
      assert starts[0] in SetOf(starts);
      var f := VisitSpec(g, st, finish, starts[0]);
      var (hit, st') := Visit(g, st, starts[0]);
      if !hit {
        StillCovered(g.nodes, finish.Keys, f.Keys, starts);
        SearchFromSpec(g, st'.(path := []), f, starts[1..]);
      }
    }
  }

  /** With every node finished the finishing numbers run against every edge. */
  lemma {:induction false} FinishedIsAcyclic(g: Digraph, color: map<NodeId, Color>, finish: map<NodeId, int>)
    requires Closed(g) && Consistent(g, color, [], finish) && g.nodes <= finish.Keys
    ensures Acyclic(g)
  {
    var rank := map n | n in g.nodes :: -finish[n];
    assert Ranks(g, rank);
    RankedIsAcyclic(g, rank);
  }

  lemma {:induction false} StillCovered(nodes: set<NodeId>, before: set<NodeId>, after: set<NodeId>,
                                        starts: seq<NodeId>)
    requires starts != [] && nodes <= before + SetOf(starts) && before <= after && starts[0] in after
    ensures nodes <= after + SetOf(starts[1..]) && SetOf(starts[1..]) <= SetOf(starts)
  {
    SetOfCons(starts[0], starts[1..]);
    assert starts == [starts[0]] + starts[1..];
  }

  /** The cycle a stalled level computation reports. */
  function ExtractCycle(g: Digraph): Option<seq<NodeId>>
    requires Closed(g)
  {
    SortedSpec(g.nodes);
    SearchFrom(g, Search(map[], []), Sorted(g.nodes))
  }

  /**
   * Cycle extraction is sound and complete: it names a genuine cycle exactly when the graph
   * has one, so after a stall its fallback message is unreachable.
   */
  lemma {:induction false} ExtractCycleSpec(g: Digraph)
    requires Closed(g)
    ensures ExtractCycle(g).Some? <==> !Acyclic(g)
    ensures ExtractCycle(g).Some? ==> IsCycle(g, ExtractCycle(g).value)
  {
    SortedSpec(g.nodes);
    SearchFromSpec(g, Search(map[], []), map[], Sorted(g.nodes));
  }

  class CycleSearch {
    const g: Digraph
    var color: map<NodeId, Color>
    var path: seq<NodeId>

    constructor (g: Digraph)
      ensures this.g == g && Abs() == Search(map[], [])
    {
      this.g := g;
      color := map[];
      path := [];
    }

    function Abs(): Search
      reads this
    {
      Search(color, path)
    }

    /** Depth-first search from a node, colouring and extending the path in place. */
    method Dfs(node: NodeId) returns (found: bool)
      requires Closed(g) && Searchable(g, Abs()) && node in g.nodes
      modifies this
      ensures (found, Abs()) == Visit(g, old(Abs()), node)
      decreases |g.nodes - color.Keys|
    {
      if node in color {
        if color[node] == Done {
          return false;
        }
        path := path[Position(path, node)..];
        return true;
      }
      EnterShrinks(g, color, node);
      SuccsInside(g, node);
      ghost var before := |g.nodes - color.Keys|;
      color := color[node := InProgress];
      path := path + [node];
      ghost var entered := Abs();
      var targets := Sorted(Succs(g, node));
      var i := 0;
      while i < |targets|
        invariant 0 <= i <= |targets|
        invariant Searchable(g, Abs()) && |g.nodes - color.Keys| < before
        invariant SetOf(targets[i..]) <= g.nodes
        invariant VisitAll(g, entered, targets) == VisitAll(g, Abs(), targets[i..])
      {
        assert targets[i] in SetOf(targets[i..]);
        ghost var seen := color.Keys;
        VisitAllUnfolds(g, Abs(), targets, i);
        found := Dfs(targets[i]);
        if found {
          return;
        }
        FewerLeft(g.nodes, seen, color.Keys);
        i := i + 1;
      }
      color := color[node := Done];
      path := Pop(path);
      return false;
    }

    /** Searches from one node; a search that finds nothing leaves an empty path. */
    method SearchStart(start: NodeId) returns (hit: bool)
      requires Closed(g) && Searchable(g, Abs()) && start in g.nodes
      modifies this
      ensures Searchable(g, Abs())
      ensures var r := Visit(g, old(Abs()), start);
              hit == r.0 && Abs() == if r.0 then r.1 else r.1.(path := [])
    {
      hit := Dfs(start);
      if !hit {
        path := [];
      }
    }

    /** Searches from every node in order. */
    method Extract() returns (cycle: Option<seq<NodeId>>)
      requires Closed(g) && Abs() == Search(map[], [])
      modifies this
      ensures cycle == ExtractCycle(g)
    {
      var starts := Sorted(g.nodes);
      SortedSpec(g.nodes);
      ghost var goal := SearchFrom(g, Abs(), starts);
      assert starts == starts[0..];
      var i := 0;
      while i < |starts|
        invariant 0 <= i <= |starts|
        invariant Searchable(g, Abs()) && SetOf(starts[i..]) <= g.nodes
        invariant goal == SearchFrom(g, Abs(), starts[i..])
      {
        assert starts[i] in SetOf(starts[i..]);
        SearchFromUnfolds(g, Abs(), starts, i);
        var hit := SearchStart(starts[i]);
        if hit {
          return Some(path);
        }
        i := i + 1;
      }
      assert starts[i..] == [];
      return None;
    }
  }

  lemma {:induction false} SearchFromUnfolds(g: Digraph, st: Search, starts: seq<NodeId>, i: nat)
    requires Closed(g) && Searchable(g, st) && i < |starts|
    requires SetOf(starts[i..]) <= g.nodes && starts[i] in g.nodes
    ensures SetOf(starts[i + 1..]) <= g.nodes
    ensures var r := Visit(g, st, starts[i]);
            SearchFrom(g, st, starts[i..]) == if r.0 then Some(r.1.path)
              else SearchFrom(g, r.1.(path := []), starts[i + 1..])
  {
    assert starts[i..][1..] == starts[i + 1..];
    assert forall x | x in SetOf(starts[i + 1..]) :: x in starts[i..];
  }

  lemma {:induction false} VisitAllUnfolds(g: Digraph, st: Search, targets: seq<NodeId>, i: nat)
    requires Closed(g) && Searchable(g, st) && i < |targets|
    requires SetOf(targets[i..]) <= g.nodes && targets[i] in g.nodes
    ensures SetOf(targets[i + 1..]) <= g.nodes
    ensures var r := Visit(g, st, targets[i]);
            VisitAll(g, st, targets[i..]) == if r.0 then r else VisitAll(g, r.1, targets[i + 1..])
  {
    assert targets[i..][1..] == targets[i + 1..];
    assert forall x | x in SetOf(targets[i + 1..]) :: x in targets[i..];
  }

  lemma {:induction false} FewerLeft(nodes: set<NodeId>, before: set<NodeId>, after: set<NodeId>)
    requires before <= after
    ensures |nodes - after| <= |nodes - before|
  {
    SubsetSize(nodes - after, nodes - before);
  }

  /** The part of a path of nodes in progress from a repeated node on is a cycle. */
  lemma {:induction false} CycleFrom(g: Digraph, colored: set<NodeId>, path: seq<NodeId>, pos: nat)
    requires colored <= g.nodes && pos < |path| && Distinct(path) && Linked(g, path)
    requires forall n | n in path :: n in colored
    requires Edge(g, path[|path| - 1], path[pos])
    ensures IsCycle(g, path[pos..])
  {
    var c := path[pos..];
    assert forall x | x in SetOf(c) :: x in path;
    forall i | 0 <= i < |c| - 1 ensures Edge(g, c[i], c[i + 1]) {
      assert Edge(g, path[pos + i], path[pos + i + 1]);
    }
  }

  // ---------------------------------------------------------------- building the waves

  /** One draw per node of a level, in sorted order. */
  method DrawLevel(prng: SplitMix64, n: nat) returns (ds: seq<u64>)
    modifies prng
    ensures ds == Draws(old(prng.state), n)
    ensures prng.state == StateAt(old(prng.state), n)
  {
    ds := [];
    ghost var start := prng.state;
    while |ds| < n
      invariant |ds| <= n
      invariant ds == Draws(start, |ds|)
      invariant prng.state == StateAt(start, |ds|)
    {
      DrawsSnoc(start, |ds|);
      var d := prng.NextU64();
      ds := ds + [d];
    }
  }

  lemma {:induction false} DrawsSnoc(start: u64, n: nat)
    ensures Draws(start, n + 1) == Draws(start, n) + [Draw(StateAt(start, n), 1)]
    ensures StateAt(StateAt(start, n), 1) == StateAt(start, n + 1)
  {
    StateAtCompose(start, n, 1);
  }

  /** The draws made after m earlier ones continue the same stream. */
  lemma {:induction false} DrawsContinue(seed: u64, m: nat, n: nat, i: nat)
    requires i < n
    ensures Draws(StateAt(seed, m), n)[i] == Draw(seed, m + i + 1)
  {
    DrawsAt(StateAt(seed, m), n, i);
    StateAtCompose(seed, m, i + 1);
  }

  /** All draws of one compile of fewer than 2^64 nodes are pairwise distinct. */
  lemma {:induction false} CompileDrawsDistinct(seed: u64, m: nat, n: nat, i: nat, p: nat, q: nat, j: nat)
    requires i < n && j < q && m + i < p + j < TWO64
    ensures Draws(StateAt(seed, m), n)[i] != Draws(StateAt(seed, p), q)[j]
  {
    DrawsContinue(seed, m, n, i);
    DrawsContinue(seed, p, q, j);
    DrawsAreDistinct(seed, m + i + 1, p + j + 1);
  }

  lemma {:induction false} WavesUnfold(g: Digraph, done: set<NodeId>, state: u64, waves: seq<seq<NodeId>>)
    requires !(g.nodes <= done) && Level(g, done) != {}
    ensures var level := Level(g, done);
            Extends(waves, WavesFrom(g, done, state))
            == Extends(waves + [WaveOf(level, Draws(state, |level|))],
                       WavesFrom(g, done + level, StateAt(state, |level|)))
  {
    var level := Level(g, done);
    var w := WaveOf(level, Draws(state, |level|));
    match WavesFrom(g, done + level, StateAt(state, |level|))
    case None =>
    case Some(rest) => assert waves + ([w] + rest) == (waves + [w]) + rest;
  }

  function Extends(waves: seq<seq<NodeId>>, more: Option<seq<seq<NodeId>>>): Option<seq<seq<NodeId>>> {
    match more
    case None => None
    case Some(rest) => Some(waves + rest)
  }

  /** What Kahn's loop keeps: the nodes done, the draws made and the waves built. */
  ghost predicate LevelsSoFar(g: Digraph, seed: u64, done: set<NodeId>, remaining: set<NodeId>, state: u64,
                              waves: seq<seq<NodeId>>)
  {
    && done <= g.nodes && remaining == g.nodes - done
    && state == StateAt(seed, |done|)
    && WavesFrom(g, {}, seed) == Extends(waves, WavesFrom(g, done, state))
  }

  lemma {:induction false} LevelsStart(g: Digraph, seed: u64)
    ensures LevelsSoFar(g, seed, {}, g.nodes, seed, [])
  {
    assert g.nodes - {} == g.nodes;
    StateAtZero(seed);
    ExtendsNothing(WavesFrom(g, {}, seed));
  }

  lemma {:induction false} LevelPlaced(g: Digraph, seed: u64, done: set<NodeId>)
    requires done <= g.nodes && Level(g, done) != {}
    ensures var level := Level(g, done);
            && done + level <= g.nodes && g.nodes - (done + level) == (g.nodes - done) - level
            && StateAt(seed, |done + level|) == StateAt(StateAt(seed, |done|), |level|)
            && |(g.nodes - done) - level| < |g.nodes - done|
  {
    var level := Level(g, done);
    StateAtCompose(seed, |done|, |level|);
    LevelInside(g, done);
    DoneGrows(g.nodes, done, level);
  }

  lemma {:induction false} LevelsStep(g: Digraph, seed: u64, done: set<NodeId>, remaining: set<NodeId>, state: u64,
                                      waves: seq<seq<NodeId>>)
    requires LevelsSoFar(g, seed, done, remaining, state, waves)
    requires remaining != {} && Level(g, done) != {}
    ensures var level := Level(g, done);
            && LevelsSoFar(g, seed, done + level, remaining - level, StateAt(state, |level|),
                           waves + [WaveOf(level, Draws(state, |level|))])
            && |remaining - level| < |remaining|
  {
    LevelPlaced(g, seed, done);
    WavesUnfold(g, done, state, waves);
  }

  lemma {:induction false} LevelsEnd(g: Digraph, seed: u64, done: set<NodeId>, state: u64, waves: seq<seq<NodeId>>)
    requires LevelsSoFar(g, seed, done, {}, state, waves)
    ensures state == StateAt(seed, |g.nodes|) && WavesFrom(g, {}, seed) == Some(waves)
  {
    assert g.nodes - done == {};
    assert done == g.nodes;
    assert waves + [] == waves;
  }

  lemma {:induction false} LevelsStall(g: Digraph, seed: u64, done: set<NodeId>, remaining: set<NodeId>, state: u64,
                                       waves: seq<seq<NodeId>>)
    requires LevelsSoFar(g, seed, done, remaining, state, waves)
    requires remaining != {} && Level(g, done) == {}
    ensures WavesFrom(g, {}, seed) == None
  {
    assert !(g.nodes <= done);
  }

  /** Kahn's loop: the waves of the level computation, one draw per node placed. */
  method Levels(g: Digraph, prng: SplitMix64) returns (r: Option<seq<seq<NodeId>>>)
    modifies prng
    ensures r == WavesFrom(g, {}, old(prng.state))
    ensures r.Some? ==> prng.state == StateAt(old(prng.state), |g.nodes|)
  {
    ghost var seed := prng.state;
    var remaining, done, waves := g.nodes, {}, [];
    LevelsStart(g, seed);
    while remaining != {}
      invariant LevelsSoFar(g, seed, done, remaining, prng.state, waves)
      decreases |remaining|
    {
      var level := Level(g, done);
      if level == {} {
        LevelsStall(g, seed, done, remaining, prng.state, waves);
        return None;
      }
      LevelsStep(g, seed, done, remaining, prng.state, waves);
      var ds := DrawLevel(prng, |level|);
      waves := waves + [WaveOf(level, ds)];
      remaining, done := remaining - level, done + level;
    }
    LevelsEnd(g, seed, done, prng.state, waves);
    r := Some(waves);
  }

  lemma {:induction false} StateAtZero(seed: u64)
    ensures StateAt(seed, 0) == seed
  {
  }

  lemma {:induction false} ExtendsNothing(more: Option<seq<seq<NodeId>>>)
    ensures Extends([], more) == more
  {
    if more.Some? {
      assert [] + more.value == more.value;
    }
  }

  /**
   * The waves, exactly when the graph is acyclic, with the generator advanced by one draw
   * per node; otherwise a genuine cycle.
   */
  method BuildWaves(g: Digraph, prng: SplitMix64) returns (r: Result<seq<seq<NodeId>>, Option<seq<NodeId>>>)
    requires Closed(g) && |g.nodes| < TWO64
    modifies prng
    ensures r.Ok? <==> Acyclic(g)
    ensures r.Ok? ==> WavesFrom(g, {}, old(prng.state)) == Some(r.value) && IsLevelling(g, {}, r.value)
    ensures r.Ok? ==> prng.state == StateAt(old(prng.state), |g.nodes|)
    ensures r.Err? ==> r.error.Some? && IsCycle(g, r.error.value)
  {
    WavesExistIffAcyclic(g, prng.state);
    ghost var seed := prng.state;
    var waves := Levels(g, prng);
    match waves {
      case Some(ws) =>
        WavesFromIsLevelling(g, {}, seed);
        r := Ok(ws);
      case None =>
        var search := new CycleSearch(g);
        var cycle := search.Extract();
        ExtractCycleSpec(g);
        r := Err(cycle);
    }
  }

  lemma {:induction false} LevelInside(g: Digraph, done: set<NodeId>)
    ensures Level(g, done) <= g.nodes - done
  {
  }

  lemma {:induction false} DoneGrows(nodes: set<NodeId>, done: set<NodeId>, level: set<NodeId>)
    requires done <= nodes && level <= nodes - done && level != {}
    ensures done + level <= nodes
    ensures nodes - (done + level) == (nodes - done) - level
    ensures |done + level| == |done| + |level|
    ensures |(nodes - done) - level| < |nodes - done|
  {
    assert done !! level;
    assert nodes - done == ((nodes - done) - level) + level;
  }
}
