/**
 * What the commit-marker reader finds in any trace of the event language, whoever wrote it:
 * each found pass is the last gate event of a closed node block, in block order.
 */
module TracePasses {
  import opened Domain
  import opened Readers
  import opened RunTrace

  predicate JudgesOrStops(e: Event) {
    e.GatePass? || e.GateFail? || e.NodeStop? || e.SessionClose?
  }

  function BlocksOf(p: ParseState): seq<Block> {
    match p
    case Between(bs) => bs
    case Inside(bs, _, _) => bs
    case Concluded(bs) => bs
    case Sealed(bs) => bs
    case _ => []
  }

  /** The block a trace place stands in, by number. */
  function PlaceOf(es: seq<Event>, x: nat): nat
    requires x <= |es|
  {
    |BlocksOf(Parse(es[..x]))|
  }

  /** Place x is a gate pass of the open node, and no judgment follows it. */
  ghost predicate PendingPass(es: seq<Event>, x: nat) {
    && x < |es| && es[x].GatePass?
    && Parse(es).Inside? && es[x].node == Parse(es).node && Parse(es[..x]) == Parse(es)
    && forall y | x < y < |es| :: !JudgesOrStops(es[y])
  }

  /** Place x is a gate pass of a node, and the next judgment or stop is that node's stop at q. */
  ghost predicate FinalPassAt(es: seq<Event>, x: nat, q: nat) {
    && x < q < |es| && es[x].GatePass? && es[q].NodeStop? && es[q].node == es[x].node
    && Parse(es[..x]).Inside? && Parse(es[..x]).node == es[x].node
    && forall y | x < y < q :: !JudgesOrStops(es[y])
  }

  ghost predicate FinalPass(es: seq<Event>, x: nat) {
    exists q :: FinalPassAt(es, x, q)
  }

  lemma {:induction false} PendingPassStays(es: seq<Event>, e: Event, x: nat)
    requires PendingPass(es, x) && !JudgesOrStops(e) && ParseStep(Parse(es), e) != Foreign
    ensures PendingPass(es + [e], x)
  {
    ParseSnoc(es, e);
    assert (es + [e])[..x] == es[..x];
  }

  /** A pending pass stands in the open block. */
  lemma {:induction false} PendingInBlock(es: seq<Event>)
    requires Parse(es) != Foreign
    ensures ReadPasses(es).last.Some? ==> PendingPass(es, ReadPasses(es).last.value)
    decreases |es|
  {
    if es != [] {
      var n := |es| - 1;
      var es0, e := es[..n], es[n];
      assert es == es0 + [e];
      PendingInBlock(es0);
      if ReadPasses(es).last.Some? && !e.GatePass? {
        PendingPassStays(es0, e, ReadPasses(es0).last.value);
      }
    }
  }

  lemma {:induction false} FinalPassStays(es: seq<Event>, e: Event, x: nat)
    requires FinalPass(es, x)
    ensures FinalPass(es + [e], x)
  {
    var q :| FinalPassAt(es, x, q);
    assert (es + [e])[..x] == es[..x];
    assert FinalPassAt(es + [e], x, q);
  }

  /** All found passes are final, in strictly increasing blocks that are closed. */
  ghost predicate FoundOk(es: seq<Event>, found: seq<nat>) {
    && (forall j | 0 <= j < |found| :: FinalPass(es, found[j]) && PlaceOf(es, found[j]) < |BlocksOf(Parse(es))|)
    && (forall i, j | 0 <= i < j < |found| :: PlaceOf(es, found[i]) < PlaceOf(es, found[j]))
  }

  lemma {:induction false} PlaceStays(es: seq<Event>, e: Event, x: nat)
    requires x <= |es|
    ensures PlaceOf(es + [e], x) == PlaceOf(es, x)
  {
    assert (es + [e])[..x] == es[..x];
  }

  lemma {:induction false} FoundStays(es: seq<Event>, e: Event, found: seq<nat>)
    requires FoundOk(es, found) && Parse(es + [e]) != Foreign
    ensures FoundOk(es + [e], found)
  {
    ParseSnoc(es, e);
    forall j | 0 <= j < |found|
      ensures FinalPass(es + [e], found[j]) && PlaceOf(es + [e], found[j]) == PlaceOf(es, found[j])
    {
      assert FinalPass(es, found[j]);
      FinalPassStays(es, e, found[j]);
      PlaceStays(es, e, found[j]);
    }
  }

  /** The stop event makes the pending pass final. */
  lemma {:induction false} PendingIsFinal(es: seq<Event>, e: Event, x: nat)
    requires PendingPass(es, x) && e.NodeStop? && Parse(es + [e]) != Foreign
    ensures FinalPass(es + [e], x) && PlaceOf(es + [e], x) < |BlocksOf(Parse(es + [e]))|
  {
    ParseSnoc(es, e);
    assert (es + [e])[..x] == es[..x];
    assert FinalPassAt(es + [e], x, |es|);
  }

  lemma {:induction false} FoundSnoc(es: seq<Event>, found: seq<nat>, x: nat)
    requires FoundOk(es, found) && FinalPass(es, x) && PlaceOf(es, x) < |BlocksOf(Parse(es))|
    requires forall j | 0 <= j < |found| :: PlaceOf(es, found[j]) < PlaceOf(es, x)
    ensures FoundOk(es, found + [x])
  {
  }

  lemma {:induction false} FoundGrows(es: seq<Event>, e: Event, found: seq<nat>, x: nat)
    requires FoundOk(es, found) && PendingPass(es, x) && e.NodeStop? && Parse(es + [e]) != Foreign
    ensures FoundOk(es + [e], found + [x])
  {
    FoundStays(es, e, found);
    PendingIsFinal(es, e, x);
    PlaceStays(es, e, x);
    forall j | 0 <= j < |found| ensures PlaceOf(es + [e], found[j]) < PlaceOf(es + [e], x) {
      assert FinalPass(es, found[j]);
      PlaceStays(es, e, found[j]);
    }
    FoundSnoc(es + [e], found, x);
  }

  lemma {:induction false} FoundNext(es: seq<Event>, e: Event)
    requires Parse(es) != Foreign && Parse(es + [e]) != Foreign && FoundOk(es, ReadPasses(es).found)
    ensures FoundOk(es + [e], ReadPasses(es + [e]).found)
  {
    var p := ReadPasses(es);
    ParseSnoc(es, e);
    ReadPassesSnoc(es, e);
    PendingInBlock(es);
    if e.NodeStop? && p.last.Some? {
      FoundGrows(es, e, p.found, p.last.value);
    } else {
      FoundStays(es, e, p.found);
    }
  }

  /** The reader finds final passes only. */
  lemma {:induction false} FoundAreFinal(es: seq<Event>)
    requires Parse(es) != Foreign
    ensures FoundOk(es, ReadPasses(es).found)
    decreases |es|
  {
    if es != [] {
      var front, e := es[..|es| - 1], es[|es| - 1];
      assert es == front + [e];
      ParseSnoc(front, e);
      FoundAreFinal(front);
      FoundNext(front, e);
    }
  }

  lemma {:induction false} IncreasingPlaces(es: seq<Event>, found: seq<nat>, i: nat)
    requires FoundOk(es, found) && i < |found|
    ensures i <= PlaceOf(es, found[i]) <= |BlocksOf(Parse(es))| - |found| + i
    ensures FinalPass(es, found[i])
  {
    IncreasingFromBelow(es, found, i);
    IncreasingFromAbove(es, found, i);
  }

  lemma {:induction false} IncreasingFromBelow(es: seq<Event>, found: seq<nat>, i: nat)
    requires FoundOk(es, found) && i < |found|
    ensures i <= PlaceOf(es, found[i])
    decreases i
  {
    assert FinalPass(es, found[i]);
    if i > 0 {
      IncreasingFromBelow(es, found, i - 1);
    }
  }

  lemma {:induction false} IncreasingFromAbove(es: seq<Event>, found: seq<nat>, i: nat)
    requires FoundOk(es, found) && i < |found|
    ensures PlaceOf(es, found[i]) <= |BlocksOf(Parse(es))| - |found| + i
    decreases |found| - i
  {
    assert FinalPass(es, found[i]);
    if i + 1 < |found| {
      IncreasingFromAbove(es, found, i + 1);
    }
  }

  /** No more passes are found than blocks are closed. */
  lemma {:induction false} FoundWithinBlocks(es: seq<Event>)
    requires Parse(es) != Foreign
    ensures |ReadPasses(es).found| <= |BlocksOf(Parse(es))|
  {
    FoundAreFinal(es);
    if ReadPasses(es).found != [] {
      IncreasingPlaces(es, ReadPasses(es).found, 0);
    }
  }

  /** With one found pass per closed block, the i-th pass is the i-th block's. */
  lemma {:induction false} OnePassPerBlock(es: seq<Event>, i: nat)
    requires Parse(es).Between? && |ReadPasses(es).found| == |Parse(es).blocks| && i < |Parse(es).blocks|
    ensures FinalPass(es, ReadPasses(es).found[i]) && PlaceOf(es, ReadPasses(es).found[i]) == i
  {
    FoundAreFinal(es);
    IncreasingPlaces(es, ReadPasses(es).found, i);
  }

  /** The block a prefix stands in is the block of that number in the whole trace. */
  lemma {:induction false} BlocksPersist(es: seq<Event>, x: nat)
    requires x <= |es| && Parse(es) != Foreign
    ensures BlocksOf(Parse(es[..x])) <= BlocksOf(Parse(es))
    ensures Parse(es[..x]) != Foreign
    ensures Parse(es[..x]).Inside? ==>
              || Parse(es) == Parse(es[..x])
              || (var i := PlaceOf(es, x);
                  && i < |BlocksOf(Parse(es))|
                  && BlocksOf(Parse(es))[i].node == Parse(es[..x]).node
                     && BlocksOf(Parse(es))[i].wave == Parse(es[..x]).wave)
    decreases |es|
  {
    if x == |es| {
      assert es[..x] == es;
    } else {
      var es0 := es[..|es| - 1];
      assert es0[..x] == es[..x];
      BlocksPersist(es0, x);
    }
  }
}
