/**
 * The append-only hash chain of a session (crates/hesmos-trace/src/log.rs) and the comparison
 * of two chains (crates/hesmos-trace/src/replay.rs). A file is its lines; a line is an event or
 * not one. The hash is any function: where the design relies on collision resistance, the
 * theorems exhibit the collision.
 */
module TraceLog {
  import opened Core
  import opened Domain

  /** The fields the chain hash covers; the time stamp is not one of them. */
  datatype HashInput = HashInput(prev: Digest, seqNo: nat, event: Event)

  type Hash = HashInput -> Digest

  datatype TraceEvent = TraceEvent(seqNo: nat, event: Event, prevHash: Digest, hash: Digest, ts: nat)

  /** A line that is not a valid event is None. */
  type Line = Option<TraceEvent>

  const GENESIS := Digest("0000000000000000000000000000000000000000000000000000000000000000")

  datatype TraceError =
    | HashMismatch(seqNo: nat, stored: Digest, computed: Digest)
    | SeqGap(expected: nat, found: nat)
    | BrokenLink(seqNo: nat, storedPrev: Digest, expectedPrev: Digest)
    | InvalidLine(line: nat)
    | WriteFailed

  function InputOf(e: TraceEvent): HashInput {
    HashInput(e.prevHash, e.seqNo, e.event)
  }

  // ---------------------------------------------------------------- scanning

  /** The fault of an event where number `expected` after `prev` is due. */
  function EventFault(h: Hash, prev: Digest, expected: nat, e: TraceEvent): Option<TraceError> {
    if e.seqNo != expected then Some(SeqGap(expected, e.seqNo))
    else if e.prevHash != prev then Some(BrokenLink(e.seqNo, e.prevHash, prev))
    else if h(InputOf(e)) != e.hash then Some(HashMismatch(e.seqNo, e.hash, h(InputOf(e))))
    else None
  }

  datatype Head = Head(count: nat, hash: Digest)

  /** Event count and head hash of a file, or its first fault. */
  function Scan(h: Hash, lines: seq<Line>): Result<Head, TraceError> {
    if lines == [] then Ok(Head(0, GENESIS)) else
      match Scan(h, lines[..|lines| - 1])
      case Err(fault) => Err(fault)
      case Ok(head) =>
        match lines[|lines| - 1]
        case None => Err(InvalidLine(|lines|))
        case Some(e) =>
          match EventFault(h, head.hash, head.count, e)
          case Some(fault) => Err(fault)
          case None => Ok(Head(head.count + 1, e.hash))
  }

  datatype LoadOutcome = Loaded(events: seq<TraceEvent>) | Tampered(events: seq<TraceEvent>, fault: TraceError)

  function LastHash(events: seq<TraceEvent>): Digest {
    if events == [] then GENESIS else events[|events| - 1].hash
  }

  /** The parsed events, up to and including the one with the first fault. */
  function Load(h: Hash, lines: seq<Line>): LoadOutcome {
    if lines == [] then Loaded([]) else
      match Load(h, lines[..|lines| - 1])
      case Tampered(events, fault) => Tampered(events, fault)
      case Loaded(events) =>
        match lines[|lines| - 1]
        case None => Tampered(events, InvalidLine(|lines|))
        case Some(e) =>
          match EventFault(h, LastHash(events), |events|, e)
          case Some(fault) => Tampered(events + [e], fault)
          case None => Loaded(events + [e])
  }

  lemma {:induction false} ScanSnoc(h: Hash, lines: seq<Line>, line: Line)
    ensures Scan(h, lines + [line]) ==
              match Scan(h, lines)
              case Err(fault) => Err(fault)
              case Ok(head) =>
                match line
                case None => Err(InvalidLine(|lines| + 1))
                case Some(e) =>
                  match EventFault(h, head.hash, head.count, e)
                  case Some(fault) => Err(fault)
                  case None => Ok(Head(head.count + 1, e.hash))
  {
    assert (lines + [line])[..|lines|] == lines;
  }

  /** The first fault of a prefix is the first fault of the file. */
  lemma {:induction false} FaultStays(h: Hash, lines: seq<Line>, n: nat)
    requires n <= |lines| && Scan(h, lines[..n]).Err?
    ensures Scan(h, lines) == Scan(h, lines[..n])
    decreases |lines| - n
  {
    if n < |lines| {
      assert lines[..n + 1] == lines[..n] + [lines[n]];
      ScanSnoc(h, lines[..n], lines[n]);
      FaultStays(h, lines, n + 1);
    } else {
      assert lines[..n] == lines;
    }
  }

  lemma {:induction false} TamperStays(h: Hash, lines: seq<Line>, n: nat)
    requires n <= |lines| && Load(h, lines[..n]).Tampered?
    ensures Load(h, lines) == Load(h, lines[..n])
    decreases |lines| - n
  {
    if n < |lines| {
      assert lines[..n + 1][..n] == lines[..n];
      TamperStays(h, lines, n + 1);
    } else {
      assert lines[..n] == lines;
    }
  }

  method ScanFile(h: Hash, lines: seq<Line>) returns (r: Result<Head, TraceError>)
    ensures r == Scan(h, lines)
  {
    var expected := 0;
    var prev := GENESIS;
    var i := 0;
    while i < |lines|
      invariant 0 <= i <= |lines|
      invariant Scan(h, lines[..i]) == Ok(Head(expected, prev))
    {
      assert lines[..i + 1] == lines[..i] + [lines[i]];
      ScanSnoc(h, lines[..i], lines[i]);
      if Scan(h, lines[..i + 1]).Err? {
        FaultStays(h, lines, i + 1);
      }
      match lines[i] {
        case None => return Err(InvalidLine(i + 1));
        case Some(e) =>
          if e.seqNo != expected {
            return Err(SeqGap(expected, e.seqNo));
          }
          if e.prevHash != prev {
            return Err(BrokenLink(e.seqNo, e.prevHash, prev));
          }
          var computed := h(InputOf(e));
          if computed != e.hash {
            return Err(HashMismatch(e.seqNo, e.hash, computed));
          }
          prev := e.hash;
          expected := expected + 1;
      }
      i := i + 1;
    }
    assert lines[..i] == lines;
    return Ok(Head(expected, prev));
  }

  method LoadPath(h: Hash, lines: seq<Line>) returns (r: LoadOutcome)
    ensures r == Load(h, lines)
  {
    var events: seq<TraceEvent> := [];
    var prev := GENESIS;
    var i := 0;
    while i < |lines|
      invariant 0 <= i <= |lines|
      invariant prev == LastHash(events)
      invariant Load(h, lines[..i]) == Loaded(events)
    {
      assert lines[..i + 1][..i] == lines[..i];
      if Load(h, lines[..i + 1]).Tampered? {
        TamperStays(h, lines, i + 1);
      }
      match lines[i] {
        case None => return Tampered(events, InvalidLine(i + 1));
        case Some(e) =>
          var fault := EventFault(h, prev, |events|, e);
          events := events + [e];
          if fault.Some? {
            return Tampered(events, fault.value);
          }
          prev := e.hash;
      }
      i := i + 1;
    }
    assert lines[..i] == lines;
    return Loaded(events);
  }

  // ---------------------------------------------------------------- the readers agree

  /** The events of a file of valid lines. */
  function EventsOf(lines: seq<Line>): seq<TraceEvent> {
    if lines == [] then [] else
      EventsOf(lines[..|lines| - 1]) + if lines[|lines| - 1].Some? then [lines[|lines| - 1].value] else []
  }

  /**
   * The tolerant reader and the strict one accept the same files and report the same first
   * fault; an accepted file is read in full.
   */
  lemma {:induction false} LoadAgreesWithScan(h: Hash, lines: seq<Line>)
    ensures Load(h, lines).Tampered? <==> Scan(h, lines).Err?
    ensures Load(h, lines).Tampered? ==> Load(h, lines).fault == Scan(h, lines).error
    ensures Load(h, lines).Loaded? ==>
              && Load(h, lines).events == EventsOf(lines)
              && Scan(h, lines) == Ok(Head(|Load(h, lines).events|, LastHash(Load(h, lines).events)))
    decreases |lines|
  {
    if lines != [] {
      LoadAgreesWithScan(h, lines[..|lines| - 1]);
    }
  }

  // ---------------------------------------------------------------- accepted chains

  /** Event i of an accepted file is number i, linked to its predecessor and correctly hashed. */
  ghost predicate ChainedAt(h: Hash, lines: seq<Line>, i: nat)
    requires i < |lines|
  {
    && lines[i].Some?
    && lines[i].value.seqNo == i
    && lines[i].value.prevHash == HeadAt(lines, i)
    && lines[i].value.hash == h(InputOf(lines[i].value))
  }

  /** The head hash after the first n lines. */
  function HeadAt(lines: seq<Line>, n: nat): Digest
    requires n <= |lines|
  {
    if n == 0 then GENESIS else if lines[n - 1].Some? then lines[n - 1].value.hash else GENESIS
  }

  ghost predicate Chained(h: Hash, lines: seq<Line>) {
    forall i | 0 <= i < |lines| :: ChainedAt(h, lines, i)
  }

  lemma {:induction false} ChainedSnoc(h: Hash, lines: seq<Line>, line: Line)
    ensures Chained(h, lines + [line]) <==> Chained(h, lines) && ChainedAt(h, lines + [line], |lines|)
    ensures HeadAt(lines + [line], |lines|) == HeadAt(lines, |lines|)
  {
    forall i | 0 <= i < |lines| ensures ChainedAt(h, lines + [line], i) <==> ChainedAt(h, lines, i) {
      assert HeadAt(lines + [line], i) == HeadAt(lines, i);
    }
    if Chained(h, lines + [line]) {
      forall i | 0 <= i < |lines| ensures ChainedAt(h, lines, i) {
        assert ChainedAt(h, lines + [line], i);
      }
    }
  }

  /** Scan accepts exactly the files whose every event is chained. */
  lemma {:induction false} AcceptedIffChained(h: Hash, lines: seq<Line>)
    ensures Scan(h, lines).Ok? <==> Chained(h, lines)
    ensures Scan(h, lines).Ok? ==> Scan(h, lines).value == Head(|lines|, HeadAt(lines, |lines|))
    decreases |lines|
  {
    if lines != [] {
      var n := |lines| - 1;
      AcceptedIffChained(h, lines[..n]);
      assert lines == lines[..n] + [lines[n]];
      ChainedSnoc(h, lines[..n], lines[n]);
    }
  }

  /** The place and kind of the first fault: everything before is chained, the line itself is not. */
  lemma {:induction false} FirstFault(h: Hash, lines: seq<Line>, n: nat)
    requires n < |lines| && Chained(h, lines[..n])
    ensures Scan(h, lines[..n]) == Ok(Head(n, HeadAt(lines, n)))
    ensures lines[n].None? ==> Scan(h, lines) == Err(InvalidLine(n + 1))
    ensures lines[n].Some? && EventFault(h, HeadAt(lines, n), n, lines[n].value).Some? ==>
              Scan(h, lines) == Err(EventFault(h, HeadAt(lines, n), n, lines[n].value).value)
  {
    AcceptedIffChained(h, lines[..n]);
    assert HeadAt(lines[..n], n) == HeadAt(lines, n);
    assert lines[..n + 1] == lines[..n] + [lines[n]];
    ScanSnoc(h, lines[..n], lines[n]);
    if Scan(h, lines[..n + 1]).Err? {
      FaultStays(h, lines, n + 1);
    }
  }

  /** The fault is what is wrong with line n, after n chained lines. */
  ghost predicate FaultOf(h: Hash, lines: seq<Line>, n: nat, fault: TraceError)
    requires n < |lines|
  {
    match lines[n]
    case None => fault == InvalidLine(n + 1)
    case Some(e) =>
      match fault
      case SeqGap(expected, found) => expected == n && found == e.seqNo != n
      case BrokenLink(seqNo, storedPrev, expectedPrev) =>
        seqNo == e.seqNo == n && storedPrev == e.prevHash && expectedPrev == HeadAt(lines, n) != storedPrev
      case HashMismatch(seqNo, stored, computed) =>
        && seqNo == e.seqNo == n && e.prevHash == HeadAt(lines, n)
        && stored == e.hash && computed == h(InputOf(e)) != stored
      case _ => false
  }

  /** A refused file is told its first line that is not chained, and what is wrong with it. */
  lemma {:induction false} FaultTells(h: Hash, lines: seq<Line>) returns (n: nat)
    requires Scan(h, lines).Err?
    ensures n < |lines| && Chained(h, lines[..n]) && FaultOf(h, lines, n, Scan(h, lines).error)
    decreases |lines|
  {
    var last := |lines| - 1;
    var front := lines[..last];
    if Scan(h, front).Err? {
      n := FaultTells(h, front);
      assert front[..n] == lines[..n];
      assert HeadAt(front, n) == HeadAt(lines, n);
    } else {
      n := last;
      AcceptedIffChained(h, front);
      assert HeadAt(front, n) == HeadAt(lines, n);
    }
  }

  /**
   * The events of a faulty file end at line n: all lines before are chained, and n's event, if
   * it has one, is the last.
   */
  ghost predicate FaultyFrom(h: Hash, lines: seq<Line>, events: seq<TraceEvent>, n: nat) {
    && n < |lines| && Chained(h, lines[..n]) && !ChainedAt(h, lines, n)
    && |events| == n + (if lines[n].Some? then 1 else 0)
    && forall i | 0 <= i < |events| :: lines[i] == Some(events[i])
  }

  lemma {:induction false} LoadedLast(h: Hash, lines: seq<Line>)
    requires lines != [] && Load(h, lines).Loaded?
    ensures var front, last := lines[..|lines| - 1], lines[|lines| - 1];
            && Load(h, front).Loaded? && last.Some?
            && EventFault(h, LastHash(Load(h, front).events), |Load(h, front).events|, last.value) == None
            && Load(h, lines).events == Load(h, front).events + [last.value]
  {
  }

  /** One more chained line. */
  lemma {:induction false} ChainedNext(h: Hash, lines: seq<Line>)
    requires lines != [] && Chained(h, lines[..|lines| - 1]) && lines[|lines| - 1].Some?
    requires EventFault(h, HeadAt(lines, |lines| - 1), |lines| - 1, lines[|lines| - 1].value) == None
    ensures Chained(h, lines) && HeadAt(lines, |lines|) == lines[|lines| - 1].value.hash
  {
    var n := |lines| - 1;
    assert lines == lines[..n] + [lines[n]];
    ChainedSnoc(h, lines[..n], lines[n]);
  }

  lemma {:induction false} LoadedInFull(h: Hash, lines: seq<Line>)
    requires Load(h, lines).Loaded?
    ensures Chained(h, lines) && |Load(h, lines).events| == |lines|
    ensures LastHash(Load(h, lines).events) == HeadAt(lines, |lines|)
    ensures forall i | 0 <= i < |lines| :: lines[i] == Some(Load(h, lines).events[i])
    decreases |lines|
  {
    if lines != [] {
      var front := lines[..|lines| - 1];
      LoadedLast(h, lines);
      LoadedInFull(h, front);
      assert HeadAt(front, |front|) == HeadAt(lines, |front|);
      ChainedNext(h, lines);
      assert forall i | 0 <= i < |front| :: front[i] == lines[i];
    }
  }

  /**
   * A file that does not load gives the parsed events up to and including the one with the
   * first fault: the chained lines before it, and the faulty line's own event if it is one.
   */
  lemma {:induction false} TamperedTells(h: Hash, lines: seq<Line>) returns (n: nat)
    requires Load(h, lines).Tampered?
    ensures FaultyFrom(h, lines, Load(h, lines).events, n)
    decreases |lines|
  {
    var last := |lines| - 1;
    var front := lines[..last];
    if Load(h, front).Tampered? {
      n := TamperedTells(h, front);
      assert front[..n] == lines[..n];
      assert HeadAt(front, n) == HeadAt(lines, n);
    } else {
      n := last;
      LoadedInFull(h, front);
      assert HeadAt(front, n) == HeadAt(lines, n);
    }
  }

  lemma {:induction false} PrefixChained(h: Hash, lines: seq<Line>, n: nat)
    requires Chained(h, lines) && n <= |lines|
    ensures Chained(h, lines[..n])
  {
    forall i | 0 <= i < n ensures ChainedAt(h, lines[..n], i) {
      assert ChainedAt(h, lines, i);
    }
  }

  /**
   * A chain does not protect its own end: every prefix of an accepted file is accepted, with
   * its own length and head.
   */
  lemma {:induction false} PrefixesScan(h: Hash, lines: seq<Line>, n: nat)
    requires Scan(h, lines).Ok? && n <= |lines|
    ensures Scan(h, lines[..n]) == Ok(Head(n, HeadAt(lines, n)))
  {
    AcceptedIffChained(h, lines);
    PrefixChained(h, lines, n);
    AcceptedIffChained(h, lines[..n]);
    assert HeadAt(lines[..n], n) == HeadAt(lines, n);
  }

  // ---------------------------------------------------------------- heads commit to chains

  /** Two different inputs with one digest. */
  ghost predicate Collide(h: Hash, x: HashInput, y: HashInput) {
    x != y && h(x) == h(y)
  }

  /** Agreement on everything but the time stamp. */
  ghost predicate SameButTime(a: Line, b: Line) {
    match a
    case None => b.None?
    case Some(e) => b.Some? && InputOf(b.value) == InputOf(e) && b.value.hash == e.hash
  }

  ghost predicate SameChain(a: seq<Line>, b: seq<Line>) {
    |a| == |b| && forall i | 0 <= i < |a| :: SameButTime(a[i], b[i])
  }

  lemma {:induction false} EqualPrefixes(h: Hash, a: seq<Line>, b: seq<Line>, n: nat)
    returns (x: HashInput, y: HashInput)
    requires Chained(h, a) && Chained(h, b) && n <= |a| && n <= |b| && HeadAt(a, n) == HeadAt(b, n)
    ensures (forall i | 0 <= i < n :: SameButTime(a[i], b[i])) || Collide(h, x, y)
    decreases n
  {
    x, y := HashInput(GENESIS, 0, TraceSeal(GENESIS)), HashInput(GENESIS, 0, TraceSeal(GENESIS));
    if n > 0 {
      assert ChainedAt(h, a, n - 1) && ChainedAt(h, b, n - 1);
      var p, q := InputOf(a[n - 1].value), InputOf(b[n - 1].value);
      if p == q {
        x, y := EqualPrefixes(h, a, b, n - 1);
      } else {
        x, y := p, q;
      }
    }
  }

  /**
   * The head commits to the whole chain: two accepted non-empty files with equal heads have
   * the same length and agree on everything but time stamps, or here is a collision.
   */
  lemma {:induction false} HeadsCommit(h: Hash, a: seq<Line>, b: seq<Line>) returns (x: HashInput, y: HashInput)
    requires Scan(h, a).Ok? && Scan(h, b).Ok? && a != [] && b != []
    requires Scan(h, a).value.hash == Scan(h, b).value.hash
    ensures SameChain(a, b) || Collide(h, x, y)
  {
    AcceptedIffChained(h, a);
    AcceptedIffChained(h, b);
    assert ChainedAt(h, a, |a| - 1) && ChainedAt(h, b, |b| - 1);
    x, y := InputOf(a[|a| - 1].value), InputOf(b[|b| - 1].value);
    if x == y {
      x, y := EqualPrefixes(h, a, b, |a|);
    }
  }

  // ---------------------------------------------------------------- reproduction

  /** The head of a stored chain; nothing for an empty one. */
  function ChainHead(events: seq<TraceEvent>): Option<Digest> {
    if events == [] then None else Some(events[|events| - 1].hash)
  }

  datatype ReproductionComparison = ReproductionComparison(headsEqual: bool, eventCountEqual: bool)

  function CompareReproduction(a: seq<TraceEvent>, b: seq<TraceEvent>): ReproductionComparison {
    ReproductionComparison(ChainHead(a) == ChainHead(b), |a| == |b|)
  }

  lemma {:induction false} LoadedLines(h: Hash, lines: seq<Line>)
    requires Scan(h, lines).Ok?
    ensures |EventsOf(lines)| == |lines|
    ensures forall i | 0 <= i < |lines| :: lines[i] == Some(EventsOf(lines)[i])
    decreases |lines|
  {
    if lines != [] {
      LoadedLines(h, lines[..|lines| - 1]);
    }
  }

  /**
   * Equal heads are enough: for two verified chains they imply equal event counts and equal
   * contents, or a collision; equal contents in turn give equal heads.
   */
  lemma {:induction false} EqualHeadsSuffice(h: Hash, a: seq<Line>, b: seq<Line>) returns (x: HashInput, y: HashInput)
    requires Scan(h, a).Ok? && Scan(h, b).Ok?
    ensures var c := CompareReproduction(EventsOf(a), EventsOf(b));
            && (c.headsEqual ==> (c.eventCountEqual && SameChain(a, b)) || Collide(h, x, y))
            && (SameChain(a, b) ==> c.headsEqual && c.eventCountEqual)
  {
    LoadedLines(h, a);
    LoadedLines(h, b);
    AcceptedIffChained(h, a);
    AcceptedIffChained(h, b);
    x, y := HashInput(GENESIS, 0, TraceSeal(GENESIS)), HashInput(GENESIS, 0, TraceSeal(GENESIS));
    if a != [] && b != [] {
      assert EventsOf(a)[|a| - 1] == a[|a| - 1].value && EventsOf(b)[|b| - 1] == b[|b| - 1].value;
      if ChainHead(EventsOf(a)) == ChainHead(EventsOf(b)) {
        x, y := HeadsCommit(h, a, b);
      }
      if SameChain(a, b) {
        assert SameButTime(a[|a| - 1], b[|b| - 1]);
      }
    }
  }

  // ---------------------------------------------------------------- tampering

  /** Changing only time stamps is never noticed. */
  lemma {:induction false} TimeIsNotCovered(h: Hash, a: seq<Line>, b: seq<Line>)
    requires SameChain(a, b)
    ensures Scan(h, a) == Scan(h, b)
    decreases |a|
  {
    if a != [] {
      var n := |a| - 1;
      assert SameButTime(a[n], b[n]);
      assert SameChain(a[..n], b[..n]) by {
        forall i | 0 <= i < n ensures SameButTime(a[..n][i], b[..n][i]) {
          assert SameButTime(a[i], b[i]);
        }
      }
      TimeIsNotCovered(h, a[..n], b[..n]);
    }
  }

  /** The faults that name event i, with the kind telling what was changed. */
  ghost predicate FaultsAt(fault: TraceError, i: nat, was: TraceEvent, e: TraceEvent) {
    match fault
    case SeqGap(expected, found) => expected == i && found == e.seqNo && found != was.seqNo
    case BrokenLink(seqNo, stored, expected) => seqNo == i && stored == e.prevHash && expected == was.prevHash
      && expected != stored
    case HashMismatch(seqNo, stored, _) => seqNo == i && stored == e.hash
    case _ => false
  }

  /**
   * Changing event i of an accepted file in any chained field, with its stored hash kept,
   * faults exactly at i, or exhibits a collision. Changing the stored hash alone does too.
   */
  lemma {:induction false} TamperFaultsAt(h: Hash, lines: seq<Line>, i: nat, e: TraceEvent)
    requires Scan(h, lines).Ok? && i < |lines| && lines[i].Some?
    requires InputOf(e) != InputOf(lines[i].value) <==> e.hash == lines[i].value.hash
    ensures var r := Scan(h, lines[i := Some(e)]);
            || (r.Err? && FaultsAt(r.error, i, lines[i].value, e))
            || Collide(h, InputOf(lines[i].value), InputOf(e))
  {
    var lines' := lines[i := Some(e)];
    AcceptedIffChained(h, lines);
    assert ChainedAt(h, lines, i);
    PrefixChained(h, lines, i);
    assert lines'[..i] == lines[..i];
    assert HeadAt(lines', i) == HeadAt(lines, i);
    FirstFault(h, lines', i);
  }

  /**
   * An event rewritten together with its hash passes at its own place, but breaks the link of
   * the next event: only the last event of a file can be rewritten unnoticed.
   */
  lemma {:induction false} RehashFaultsNext(h: Hash, lines: seq<Line>, i: nat, e: TraceEvent)
    requires Scan(h, lines).Ok? && i < |lines| && lines[i].Some?
    requires e.seqNo == i && e.prevHash == lines[i].value.prevHash && e.hash == h(InputOf(e))
             && e.hash != lines[i].value.hash
    ensures var r := Scan(h, lines[i := Some(e)]);
            if i + 1 < |lines| then r == Err(BrokenLink(i + 1, lines[i].value.hash, e.hash))
              else r == Ok(Head(|lines|, e.hash))
  {
    var lines' := lines[i := Some(e)];
    AcceptedIffChained(h, lines);
    assert ChainedAt(h, lines, i);
    PrefixChained(h, lines, i);
    assert lines'[..i] == lines[..i] && HeadAt(lines', i) == HeadAt(lines, i);
    AcceptedIffChained(h, lines'[..i]);
    assert lines'[..i + 1] == lines'[..i] + [Some(e)];
    ScanSnoc(h, lines'[..i], Some(e));
    AcceptedIffChained(h, lines'[..i + 1]);
    if i + 1 < |lines| {
      assert ChainedAt(h, lines, i + 1);
      FirstFault(h, lines', i + 1);
    } else {
      assert lines'[..i + 1] == lines';
    }
  }

  /** What a line must be to stand at place i of an accepted file without being noticed. */
  ghost predicate FitsAt(h: Hash, lines: seq<Line>, i: nat, line: Line)
    requires i < |lines|
  {
    && line.Some?
    && line.value.seqNo == i
    && line.value.prevHash == HeadAt(lines, i)
    && line.value.hash == h(InputOf(line.value))
    && (i + 1 < |lines| ==> lines[i].Some? && line.value.hash == lines[i].value.hash)
  }

  lemma {:induction false} FitsIsChained(h: Hash, lines: seq<Line>, i: nat, line: Line)
    requires Chained(h, lines) && i < |lines|
    ensures Chained(h, lines[i := line]) <==> FitsAt(h, lines, i, line)
  {
    var lines' := lines[i := line];
    assert ChainedAt(h, lines, i);
    if FitsAt(h, lines, i, line) {
      forall j | 0 <= j < |lines'| ensures ChainedAt(h, lines', j) {
        assert ChainedAt(h, lines, j);
      }
    }
    if Chained(h, lines') {
      assert ChainedAt(h, lines', i);
      if i + 1 < |lines| {
        assert ChainedAt(h, lines, i + 1) && ChainedAt(h, lines', i + 1);
      }
    }
  }

  /**
   * Any single replaced line of an accepted file, whatever it is replaced with: the scan
   * accepts the result if and only if the new line fits its place.
   */
  lemma {:induction false} ReplacedLineAccepted(h: Hash, lines: seq<Line>, i: nat, line: Line)
    requires Scan(h, lines).Ok? && i < |lines|
    ensures Scan(h, lines[i := line]).Ok? <==> FitsAt(h, lines, i, line)
  {
    AcceptedIffChained(h, lines);
    AcceptedIffChained(h, lines[i := line]);
    FitsIsChained(h, lines, i, line);
  }

  /**
   * So a replaced line passes unnoticed only if nothing but its time stamp changed, or it is
   * the last line, or here is a collision.
   */
  lemma {:induction false} ReplacedLineNoticed(h: Hash, lines: seq<Line>, i: nat, line: Line)
    requires Scan(h, lines).Ok? && i < |lines| && Scan(h, lines[i := line]).Ok?
    ensures lines[i].Some? && line.Some?
    ensures SameButTime(lines[i], line) || i + 1 == |lines| || Collide(h, InputOf(lines[i].value), InputOf(line.value))
  {
    ReplacedLineAccepted(h, lines, i, line);
    AcceptedIffChained(h, lines);
    assert ChainedAt(h, lines, i);
  }

  // ---------------------------------------------------------------- the log

  /**
   * How a write ends: the whole line reaches the file, nothing does, or the write fails part
   * way; what was left of the line then reads as no event, or, when only the line break is
   * missing, as the event.
   */
  datatype WriteEffect = WholeLine | NoBytes | TornLine(readable: bool)

  class EventLog {
    const h: Hash
    var lines: seq<Line>
    var nextSeq: nat
    var prevHash: Digest

    /** A log over an empty file. */
    constructor (h: Hash)
      ensures this.h == h && lines == [] && Valid()
    {
      this.h := h;
      lines, nextSeq, prevHash := [], 0, GENESIS;
    }

    /** The in-memory state is what a scan of the file computes. */
    ghost predicate Valid()
      reads this
    {
      Scan(h, lines) == Ok(Head(nextSeq, prevHash))
    }

    /** Opening an existing file scans it first; any fault refuses the open. */
    method Open(file: seq<Line>) returns (fault: Option<TraceError>)
      modifies this
      ensures fault.Some? <==> Scan(h, file).Err?
      ensures fault.Some? ==> fault.value == Scan(h, file).error
      ensures fault.None? ==> lines == file && Valid()
      ensures fault.Some? ==> lines == old(lines) && nextSeq == old(nextSeq) && prevHash == old(prevHash)
    {
      var r := ScanFile(h, file);
      match r {
        case Err(e) => return Some(e);
        case Ok(head) =>
          lines, nextSeq, prevHash := file, head.count, head.hash;
          return None;
      }
    }

    /**
     * Appends one chained event. A failed write leaves number and head as they were, although
     * the file may have grown: by a line that the next scan refuses, or by the event itself.
     */
    method TryAppend(event: Event, ts: nat, write: WriteEffect) returns (r: Result<TraceEvent, TraceError>)
      requires Valid()
      modifies this
      ensures r.Ok? <==> write == WholeLine
      ensures r.Err? ==> nextSeq == old(nextSeq) && prevHash == old(prevHash)
      ensures write == NoBytes ==> lines == old(lines) && Valid()
      ensures write == TornLine(false) ==> lines == old(lines) + [None] && Scan(h, lines) == Err(InvalidLine(|lines|))
      ensures write == TornLine(true) ==>
                && lines == old(lines) + [Some(NextEvent(h, old(lines), event, ts))]
                && Scan(h, lines).Ok? && Scan(h, lines).value.count == nextSeq + 1
      ensures r.Ok? ==>
                && Valid() && lines == old(lines) + [Some(r.value)] && r.value == NextEvent(h, old(lines), event, ts)
                && r.value.event == event && r.value.ts == ts && r.value.seqNo == old(|lines|)
                && r.value.prevHash == old(prevHash) && prevHash == r.value.hash == h(InputOf(r.value))
    {
      var hash := h(HashInput(prevHash, nextSeq, event));
      var e := TraceEvent(nextSeq, event, prevHash, hash, ts);
      AcceptedIffChained(h, lines);
      match write {
        case NoBytes =>
          return Err(WriteFailed);
        case TornLine(readable) =>
          var left := if readable then Some(e) else None;
          ScanSnoc(h, lines, left);
          lines := lines + [left];
          return Err(WriteFailed);
        case WholeLine =>
          ScanSnoc(h, lines, Some(e));
          lines := lines + [Some(e)];
          nextSeq := nextSeq + 1;
          prevHash := hash;
          return Ok(e);
      }
    }

    /** The number of verified events, or the first fault of the file as it now is. */
    method Verify() returns (r: Result<nat, TraceError>)
      ensures Valid() ==> r == Ok(|lines|)
      ensures r.Err? <==> Scan(h, lines).Err?
      ensures r.Err? ==> r.error == Scan(h, lines).error
      ensures r.Ok? ==> r.value == |lines|
    {
      AcceptedIffChained(h, lines);
      var scanned := ScanFile(h, lines);
      match scanned {
        case Err(e) => return Err(e);
        case Ok(head) => return Ok(head.count);
      }
    }
  }

  /** The event a log appends to a file. */
  function NextEvent(h: Hash, lines: seq<Line>, event: Event, ts: nat): TraceEvent {
    var prev := HeadAt(lines, |lines|);
    TraceEvent(|lines|, event, prev, h(HashInput(prev, |lines|, event)), ts)
  }

  /** The file after appending events with their time stamps to an empty log. */
  function Written(h: Hash, events: seq<(Event, nat)>): (lines: seq<Line>)
    ensures |lines| == |events|
  {
    if events == [] then [] else
      var lines := Written(h, events[..|events| - 1]);
      lines + [Some(NextEvent(h, lines, events[|events| - 1].0, events[|events| - 1].1))]
  }

  /** The head that appending events to an empty chain leaves. */
  function HeadOf(h: Hash, events: seq<Event>): Digest {
    if events == [] then GENESIS
    else h(HashInput(HeadOf(h, events[..|events| - 1]), |events| - 1, events[|events| - 1]))
  }

  /** The head of a written file depends on the events alone. */
  lemma {:induction false} WrittenHead(h: Hash, events: seq<(Event, nat)>, es: seq<Event>)
    requires |es| == |events| && forall i | 0 <= i < |es| :: events[i].0 == es[i]
    ensures HeadAt(Written(h, events), |events|) == HeadOf(h, es)
    decreases |events|
  {
    if events != [] {
      WrittenHead(h, events[..|events| - 1], es[..|es| - 1]);
    }
  }

  lemma {:induction false} NextEventIsChained(h: Hash, lines: seq<Line>, event: Event, ts: nat)
    requires Chained(h, lines)
    ensures Chained(h, lines + [Some(NextEvent(h, lines, event, ts))])
  {
    var lines' := lines + [Some(NextEvent(h, lines, event, ts))];
    forall i | 0 <= i < |lines'| ensures ChainedAt(h, lines', i) {
      if i < |lines| {
        assert ChainedAt(h, lines, i);
      }
    }
  }

  ghost predicate Records(lines: seq<Line>, events: seq<(Event, nat)>) {
    |lines| == |events| && forall i | 0 <= i < |events| :: lines[i].Some? && lines[i].value.event == events[i].0
  }

  lemma {:induction false} WrittenIsChained(h: Hash, events: seq<(Event, nat)>)
    ensures Chained(h, Written(h, events)) && Records(Written(h, events), events)
    decreases |events|
  {
    if events != [] {
      var n := |events| - 1;
      WrittenIsChained(h, events[..n]);
      NextEventIsChained(h, Written(h, events[..n]), events[n].0, events[n].1);
    }
  }

  /** What was appended to a fresh log scans, and reads back as appended. */
  lemma {:induction false} WrittenReadsBack(h: Hash, events: seq<(Event, nat)>)
    ensures var lines := Written(h, events);
            && Scan(h, lines).Ok? && Scan(h, lines).value.count == |events|
            && Load(h, lines).Loaded? && |Load(h, lines).events| == |events|
            && forall i | 0 <= i < |events| :: Load(h, lines).events[i].event == events[i].0
  {
    var lines := Written(h, events);
    WrittenIsChained(h, events);
    AcceptedIffChained(h, lines);
    LoadAgreesWithScan(h, lines);
    LoadedLines(h, lines);
    forall i | 0 <= i < |events| ensures Load(h, lines).events[i].event == events[i].0 {
      assert lines[i] == Some(EventsOf(lines)[i]);
    }
  }

  lemma {:induction false} SameHeadSameNext(h: Hash, a: seq<Line>, b: seq<Line>, event: Event, s: nat, t: nat)
    requires SameChain(a, b)
    ensures SameChain(a + [Some(NextEvent(h, a, event, s))], b + [Some(NextEvent(h, b, event, t))])
  {
    if a != [] {
      assert SameButTime(a[|a| - 1], b[|b| - 1]);
    }
    var (a', b') := (a + [Some(NextEvent(h, a, event, s))], b + [Some(NextEvent(h, b, event, t))]);
    forall i | 0 <= i < |a'| ensures SameButTime(a'[i], b'[i]) {
      if i < |a| {
        assert SameButTime(a[i], b[i]);
      }
    }
  }

  /** Sessions that append the same events, at whatever times, write the same chain. */
  lemma {:induction false} SameEventsSameChain(h: Hash, a: seq<(Event, nat)>, b: seq<(Event, nat)>)
    requires |a| == |b| && forall i | 0 <= i < |a| :: a[i].0 == b[i].0
    ensures SameChain(Written(h, a), Written(h, b))
    decreases |a|
  {
    if a != [] {
      var n := |a| - 1;
      SameEventsSameChain(h, a[..n], b[..n]);
      SameHeadSameNext(h, Written(h, a[..n]), Written(h, b[..n]), a[n].0, a[n].1, b[n].1);
    }
  }
}
