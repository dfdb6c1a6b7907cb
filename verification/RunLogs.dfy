/**
 * The log of a run as it lies on disk, at any moment: what was written reads back, and the
 * commit-marker reader pairs every stored checkpoint row with its node's committing pass,
 * whenever the session stopped.
 */
module RunLogs {
  import opened Core
  import opened Domain
  import opened RunModel
  import opened Readers
  import opened RunTrace
  import opened TracePasses
  import opened RunDurable
  import opened RunInvariant
  import opened RunOutcomes
  import opened RunTheorems
  import TraceLog

  // ---------------------------------------------------------------- the reader at a prefix

  /** The pass is pending after what was found, or has been found next. */
  predicate Holds(p: PassReader, found: seq<nat>, pass: nat) {
    (p.found == found && p.last == Some(pass)) || found + [pass] <= p.found
  }

  /** The next pass that was or will be found is not before place c. */
  predicate Misses(p: PassReader, found: seq<nat>, c: nat) {
    || (p.found == found && (p.last.Some? ==> p.last.value >= c))
    || (|p.found| > |found| && p.found[..|found|] == found && p.found[|found|] >= c)
  }

  lemma {:induction false} HoldsOrMisses(p: PassReader, e: Event, x: nat, found: seq<nat>, pass: nat, c: nat)
    requires c <= x && (Holds(p, found, pass) || Misses(p, found, c))
    ensures Holds(ReadPass(p, e, x), found, pass) || Misses(ReadPass(p, e, x), found, c)
    ensures Misses(p, found, c) ==> Misses(ReadPass(p, e, x), found, c)
  {
  }

  /** From place c on, a pass pending there is kept until it is found, or missed for good. */
  lemma {:induction false} PassKeptOrMissed(es: seq<Event>, c: nat, x: nat, found: seq<nat>, pass: nat)
    requires c <= x <= |es| && ReadPasses(es[..c]) == PassReader(Some(pass), found)
    ensures Holds(ReadPasses(es[..x]), found, pass) || Misses(ReadPasses(es[..x]), found, c)
    decreases x
  {
    if x > c {
      PassKeptOrMissed(es, c, x - 1, found, pass);
      assert es[..x] == es[..x - 1] + [es[x - 1]];
      ReadPassesSnoc(es[..x - 1], es[x - 1]);
      HoldsOrMisses(ReadPasses(es[..x - 1]), es[x - 1], x - 1, found, pass, c);
    }
  }

  lemma {:induction false} MissedForGood(es: seq<Event>, c: nat, x: nat, y: nat, found: seq<nat>)
    requires c <= x <= y <= |es| && Misses(ReadPasses(es[..x]), found, c)
    ensures Misses(ReadPasses(es[..y]), found, c)
    decreases y
  {
    if y > x {
      MissedForGood(es, c, x, y - 1, found);
      assert es[..y] == es[..y - 1] + [es[y - 1]];
      ReadPassesSnoc(es[..y - 1], es[y - 1]);
      HoldsOrMisses(ReadPasses(es[..y - 1]), es[y - 1], y - 1, found, 0, c);
    }
  }

  /** A pass pending at c that the whole trace finds is found in every prefix from c on. */
  lemma {:induction false} PassFoundFrom(es: seq<Event>, c: nat, x: nat, found: seq<nat>, pass: nat)
    requires pass < c <= x <= |es| && ReadPasses(es[..c]) == PassReader(Some(pass), found)
    requires found + [pass] <= ReadPasses(es).found
    ensures found + [pass] <= BoundaryFinalPasses(es[..x])
  {
    PassKeptOrMissed(es, c, x, found, pass);
    assert es[..|es|] == es;
    if Misses(ReadPasses(es[..x]), found, c) {
      MissedForGood(es, c, x, |es|, found);
      NotBoth(ReadPasses(es), found, pass, c);
    }
  }

  lemma {:induction false} NotBoth(p: PassReader, found: seq<nat>, pass: nat, c: nat)
    requires pass < c && found + [pass] <= p.found
    ensures !Misses(p, found, c)
  {
    assert p.found[|found|] == (found + [pass])[|found|];
  }

  // ---------------------------------------------------------------- crash windows

  /** The rows stored when a session stopped after its x-th event were the first r. */
  ghost predicate StoredBy(d: Durable, x: nat, r: nat) {
    && r <= |d.rows| == |d.commitAt|
    && (forall k | 0 <= k < r :: d.commitAt[k] <= x)
    && (forall k | r <= k < |d.commitAt| :: x <= d.commitAt[k])
  }

  /** The first r passes are found in any prefix that reaches past their commits. */
  lemma {:induction false} PrefixFinds(S: Session, es: seq<Event>, d: Durable, x: nat, r: nat)
    requires CommitsPlaced(S, es, d) && x <= |es| && r <= |d.passes| && forall k | 0 <= k < r :: d.commitAt[k] <= x
    ensures d.passes[..r] <= BoundaryFinalPasses(es[..x])
  {
    if r > 0 {
      assert StoredInBlock(S, es, d, r - 1);
      assert d.passes[..r - 1] + [d.passes[r - 1]] == d.passes[..r];
      PassFoundFrom(es, d.commitAt[r - 1], x, d.passes[..r - 1], d.passes[r - 1]);
    }
  }

  /** Pass k is the committing pass of node k. */
  lemma {:induction false} PlacedPass(S: Session, es: seq<Event>, d: Durable, k: nat)
    requires CommitsPlaced(S, es, d) && Parse(es) != Foreign && k < |d.passes|
    ensures CommittingPass(S, es, d.passes[k], k)
  {
    assert StoredInBlock(S, es, d, k);
    var c, x := d.commitAt[k], d.passes[k];
    PendingInBlock(es[..c]);
    assert es[..c][..x] == es[..x];
    FoundAreFinal(es);
    assert ReadPasses(es).found[k] == x;
  }

  /**
   * What the commit-marker reader makes of the first x events and the first r checkpoint rows:
   * one marker a row, in order, and row k goes with the committing pass of node k.
   */
  ghost predicate MarkersAt(S: Session, es: seq<Event>, d: Durable, x: nat, r: nat)
    requires x <= |es| && r <= |d.rows|
  {
    var ms := CommitMarkers(es[..x], CommitSeqs(d)[..r]);
    && |ms| == r <= |d.passes|
    && forall k | 0 <= k < r :: ms[k] == (d.passes[k], k + 1) && CommittingPass(S, es, d.passes[k], k)
  }

  lemma {:induction false} SeqOfRow(S: Session, d: Durable, k: nat)
    requires DurableOk(S, d) && k < |d.rows|
    ensures CommitSeqs(d)[k] == k + 1
  {
    assert RowOk(S, d, k);
  }

  lemma {:induction false} PrefixMarkers(S: Session, s: RunState, x: nat, r: nat)
    requires Account(S, s) && x <= |s.rec.trace| && StoredBy(s.durable, x, r)
    ensures MarkersAt(S, s.rec.trace, s.durable, x, r)
  {
    var es, d := s.rec.trace, s.durable;
    PrefixFinds(S, es, d, x, r);
    ZipAt(BoundaryFinalPasses(es[..x]), CommitSeqs(d)[..r]);
    forall k | 0 <= k < r
      ensures CommitSeqs(d)[..r][k] == k + 1 && d.passes[..r][k] == d.passes[k] && CommittingPass(S, es, d.passes[k], k)
    {
      SeqOfRow(S, d, k);
      PlacedPass(S, es, d, k);
    }
  }

  /**
   * The commit markers are exact in every crash window: wherever a session stopped, with the
   * first x events of its run in the log and r checkpoint rows stored by then, the reader
   * pairs each of the r rows with its node's committing pass and makes no other marker; a
   * pass without its row makes none. Normal ends and crashes of the program are covered.
   */
  lemma {:induction false} MarkersInCrashWindows(S: Session, x: nat, r: nat)
    requires Compiled(S) && x <= |Run(S).0.rec.trace| && StoredBy(Run(S).0.durable, x, r)
    ensures MarkersAt(S, Run(S).0.rec.trace, Run(S).0.durable, x, r)
  {
    var s := RunAccount(S);
    PrefixMarkers(S, s, x, r);
  }

  /** Every row was stored inside its own node's block, after that node's committing pass. */
  ghost predicate RowsPlaced(S: Session, s: RunState) {
    && |s.durable.rows| == |s.durable.passes| == |s.durable.commitAt| <= |Order(S)|
    && forall k: nat | k < |s.durable.rows| :: StoredInBlock(S, s.rec.trace, s.durable, k)
  }

  lemma {:induction false} AccountPlacesRows(S: Session, s: RunState)
    requires Account(S, s)
    ensures RowsPlaced(S, s)
  {
  }

  /** The crash windows themselves: where in the trace of a run each of its rows was stored. */
  lemma {:induction false} RowsStoredInBlocks(S: Session)
    requires Compiled(S)
    ensures RowsPlaced(S, Run(S).0)
  {
    var s := RunAccount(S);
    AccountPlacesRows(S, s);
  }

  // ---------------------------------------------------------------- normal ends

  /** What the commit-marker reader makes of a finished log. */
  ghost predicate MarkersExact(S: Session, s: RunState) {
    var es := s.rec.trace;
    var passes := BoundaryFinalPasses(es);
    var k := |s.durable.commits|;
    && k <= |passes| <= k + 1
    && |CommitMarkers(es, CommitSeqs(s.durable))| == k
    && forall i | 0 <= i < k ::
         CommitMarkers(es, CommitSeqs(s.durable))[i] == (passes[i], i + 1) && CommittingPass(S, es, passes[i], i)
  }

  lemma {:induction false} MarkersOfWhole(S: Session, s: RunState, bs: seq<Block>)
    requires Account(S, s) && Parse(s.rec.trace) == Concluded(bs) && |bs| <= |s.durable.commits| + 1
    ensures MarkersExact(S, s)
  {
    var es, d := s.rec.trace, s.durable;
    assert es[..|es|] == es && CommitSeqs(d)[..|d.rows|] == CommitSeqs(d);
    AccountPlacesRows(S, s);
    forall k | 0 <= k < |d.rows| ensures d.commitAt[k] <= |es| {
      assert StoredInBlock(S, es, d, k);
    }
    PrefixMarkers(S, s, |es|, |d.rows|);
    PrefixFinds(S, es, d, |es|, |d.rows|);
    PendingInBlock(es);
    FoundWithinBlocks(es);
  }

  /**
   * The readers rebuild the commit points of every normal run from its event stream alone:
   * commit k is paired with the gate pass that let node k commit, and at most one surplus
   * pass, of a node that did not commit, falls away.
   */
  lemma {:induction false} CommitMarkersAreExact(S: Session)
    requires Compiled(S)
    ensures Run(S).1.Ended? ==> MarkersExact(S, Run(S).0)
  {
    var s := RunAccount(S);
    var bs := RunTraceIsOrdered(S);
    if Run(S).1.Ended? {
      MarkersOfWhole(S, s, bs);
    }
  }

  // ---------------------------------------------------------------- the windows in order

  lemma {:induction false} RowsPlacedInOrder(S: Session, s: RunState, j: nat, k: nat)
    requires RowsPlaced(S, s) && j < k < |s.durable.rows|
    ensures s.durable.commitAt[j] < s.durable.commitAt[k]
  {
    var es, d := s.rec.trace, s.durable;
    assert StoredInBlock(S, es, d, j) && StoredInBlock(S, es, d, k);
    if d.commitAt[k] <= d.commitAt[j] {
      FoundOnlyGrows(es[..d.commitAt[k]], es[..d.commitAt[j]]);
    }
  }

  /** Wherever a session stopped there was a number of rows stored by then. */
  lemma {:induction false} RowsStoredBy(S: Session, x: nat) returns (r: nat)
    requires Compiled(S)
    ensures StoredBy(Run(S).0.durable, x, r)
  {
    RowsStoredInBlocks(S);
    r := RowsPlacedBy(S, Run(S).0, x);
  }

  lemma {:induction false} RowsPlacedBy(S: Session, s: RunState, x: nat) returns (r: nat)
    requires RowsPlaced(S, s)
    ensures StoredBy(s.durable, x, r)
  {
    var d := s.durable;
    r := 0;
    while r < |d.rows| && d.commitAt[r] <= x
      invariant r <= |d.rows| && forall k | 0 <= k < r :: d.commitAt[k] <= x
    {
      r := r + 1;
    }
    forall k | r <= k < |d.rows| ensures x <= d.commitAt[k] {
      if r < k {
        RowsPlacedInOrder(S, s, r, k);
      }
    }
  }

  // ---------------------------------------------------------------- the log on disk

  /** The events with the time stamps they were written with. */
  function Stamped(es: seq<Event>, clock: nat -> nat): (stamped: seq<(Event, nat)>)
    ensures |stamped| == |es|
    ensures forall i | 0 <= i < |es| :: stamped[i] == (es[i], clock(i))
  {
    seq(|es|, i requires 0 <= i < |es| => (es[i], clock(i)))
  }

  /** The file a run leaves. */
  function LogOf(h: TraceLog.Hash, es: seq<Event>, clock: nat -> nat): (lines: seq<TraceLog.Line>)
    ensures |lines| == |es|
  {
    TraceLog.Written(h, Stamped(es, clock))
  }

  function KindsOf(events: seq<TraceLog.TraceEvent>): (es: seq<Event>)
    ensures |es| == |events|
    ensures forall i | 0 <= i < |events| :: es[i] == events[i].event
  {
    seq(|events|, i requires 0 <= i < |events| => events[i].event)
  }

  /** The file loads without a fault, and as these events. */
  ghost predicate LoadsAs(h: TraceLog.Hash, lines: seq<TraceLog.Line>, es: seq<Event>) {
    TraceLog.Load(h, lines).Loaded? && KindsOf(TraceLog.Load(h, lines).events) == es
  }

  lemma {:induction false} WrittenPrefix(h: TraceLog.Hash, events: seq<(Event, nat)>, x: nat)
    requires x <= |events|
    ensures TraceLog.Written(h, events)[..x] == TraceLog.Written(h, events[..x])
    decreases |events|
  {
    if x < |events| {
      var front := events[..|events| - 1];
      WrittenPrefix(h, front, x);
      assert front[..x] == events[..x];
    } else {
      assert events[..x] == events;
    }
  }

  lemma {:induction false} KindsAre(events: seq<TraceLog.TraceEvent>, es: seq<Event>)
    requires |events| == |es| && forall i | 0 <= i < |es| :: events[i].event == es[i]
    ensures KindsOf(events) == es
  {
  }

  lemma {:induction false} WrittenLoadsAs(h: TraceLog.Hash, events: seq<(Event, nat)>, es: seq<Event>)
    requires |events| == |es| && forall i | 0 <= i < |es| :: events[i].0 == es[i]
    ensures LoadsAs(h, TraceLog.Written(h, events), es)
  {
    TraceLog.WrittenReadsBack(h, events);
    KindsAre(TraceLog.Load(h, TraceLog.Written(h, events)).events, es);
  }

  /** Every prefix of a written log loads as the prefix of its events. */
  lemma {:induction false} LogReadsBack(h: TraceLog.Hash, es: seq<Event>, clock: nat -> nat, x: nat)
    requires x <= |es|
    ensures LoadsAs(h, LogOf(h, es, clock)[..x], es[..x])
  {
    var events := Stamped(es, clock);
    WrittenPrefix(h, events, x);
    WrittenLoadsAs(h, events[..x], es[..x]);
  }

  /**
   * The log of a run that stopped after its x-th event, read back from disk: it loads without
   * a fault, and its commit markers are exact.
   */
  lemma {:induction false} StoppedLogTells(S: Session, h: TraceLog.Hash, clock: nat -> nat, x: nat, r: nat)
    requires Compiled(S) && x <= |Run(S).0.rec.trace| && StoredBy(Run(S).0.durable, x, r)
    ensures var es := Run(S).0.rec.trace; var lines := LogOf(h, es, clock)[..x];
            LoadsAs(h, lines, es[..x]) && MarkersAt(S, es, Run(S).0.durable, x, r)
  {
    LogReadsBack(h, Run(S).0.rec.trace, clock, x);
    MarkersInCrashWindows(S, x, r);
  }

  // ---------------------------------------------------------------- the seal

  /** The file after sealing: one more event, which records the head before it. */
  function SealedLog(h: TraceLog.Hash, lines: seq<TraceLog.Line>, ts: nat): seq<TraceLog.Line> {
    lines + [Some(TraceLog.NextEvent(h, lines, TraceSeal(TraceLog.HeadAt(lines, |lines|)), ts))]
  }

  /** The events of a run that ended, then its seal. */
  function WithSeal(es: seq<Event>, head: Digest): seq<Event> {
    es + [TraceSeal(head)]
  }

  /** The log of a run and its seal read back in full; the seal records the head of the run's log. */
  lemma {:induction false} SealReadsBack(h: TraceLog.Hash, es: seq<Event>, clock: nat -> nat, ts: nat)
    ensures var lines := LogOf(h, es, clock); var head := TraceLog.HeadAt(lines, |lines|);
            && TraceLog.Scan(h, lines) == Ok(TraceLog.Head(|es|, head)) && head == TraceLog.HeadOf(h, es)
            && LoadsAs(h, SealedLog(h, lines, ts), WithSeal(es, head))
  {
    var lines := LogOf(h, es, clock);
    var head := TraceLog.HeadAt(lines, |lines|);
    var events := Stamped(es, clock) + [(TraceSeal(head), ts)];
    assert events[..|es|] == Stamped(es, clock);
    assert TraceLog.Written(h, events) == SealedLog(h, lines, ts);
    WrittenLoadsAs(h, events, WithSeal(es, head));
    TraceLog.WrittenReadsBack(h, Stamped(es, clock));
    TraceLog.WrittenHead(h, Stamped(es, clock), es);
    TraceLog.AcceptedIffChained(h, lines);
  }

  /** Sealing closes the event language and hides nothing from the readers. */
  lemma {:induction false} SealKeepsReaders(es: seq<Event>, head: Digest, bs: seq<Block>)
    requires Parse(es) == Concluded(bs)
    ensures Parse(WithSeal(es, head)) == Sealed(bs)
    ensures NodePath(WithSeal(es, head)) == NodePath(es)
    ensures BoundaryFinalPasses(WithSeal(es, head)) == BoundaryFinalPasses(es)
  {
    ParseSnoc(es, TraceSeal(head));
    NodePathSnoc(es, TraceSeal(head));
    ReadPassesSnoc(es, TraceSeal(head));
  }

  /**
   * From the sealed log of a normal run alone: it loads without a fault, parses as open,
   * compiled, node blocks, close, seal; its node path is the run's; and with the checkpoint
   * rows its commit markers are the run's, each at its node's committing pass.
   */
  ghost predicate SealedLogTells(S: Session, s: RunState, h: TraceLog.Hash, lines: seq<TraceLog.Line>, bs: seq<Block>) {
    exists es :: LoadsAs(h, lines, es) && SealedTells(S, s, es, bs)
  }

  ghost predicate SealedTells(S: Session, s: RunState, es: seq<Event>, bs: seq<Block>) {
    && Parse(es) == Sealed(bs) && OrderedBlocks(S, bs)
    && NodePath(es) == StepsOf(bs) == NodePath(s.rec.trace)
    && CommitMarkers(es, CommitSeqs(s.durable)) == CommitMarkers(s.rec.trace, CommitSeqs(s.durable))
    && MarkersExact(S, s)
  }

  lemma {:induction false} SealedRunTells(S: Session, s: RunState, e: Ending, head: Digest, bs: seq<Block>)
    requires e.Ended? && LogOrdered(S, s, e, bs) && MarkersExact(S, s)
    ensures SealedTells(S, s, WithSeal(s.rec.trace, head), bs)
  {
    SealKeepsReaders(s.rec.trace, head, bs);
  }

  lemma {:induction false} SealedLogOfRun(S: Session, h: TraceLog.Hash, clock: nat -> nat, ts: nat)
    returns (bs: seq<Block>)
    requires Compiled(S) && Run(S).1.Ended?
    ensures SealedLogTells(S, Run(S).0, h, SealedLog(h, LogOf(h, Run(S).0.rec.trace, clock), ts), bs)
  {
    var (s, e) := Run(S);
    bs := RunTraceIsOrdered(S);
    CommitMarkersAreExact(S);
    var lines := LogOf(h, s.rec.trace, clock);
    var head := TraceLog.HeadAt(lines, |lines|);
    SealReadsBack(h, s.rec.trace, clock, ts);
    SealedRunTells(S, s, e, head, bs);
    assert LoadsAs(h, SealedLog(h, lines, ts), WithSeal(s.rec.trace, head));
  }
}
