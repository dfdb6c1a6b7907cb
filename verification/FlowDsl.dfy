/**
 * The flow notation of plans (parse_flow and validate_ident in
 * crates/hesmos-orchestrator/src/compile.rs): statements `a -> b, c` separated by semicolons
 * or line ends. The parser accepts exactly the texts of the grammar, and reads back the edges
 * they denote.
 */
module FlowDsl {
  import opened Core

  type FlowEdge = (string, string)

  // ---------------------------------------------------------------- tokens

  predicate IdentChar(c: char) {
    'a' <= c <= 'z' || 'A' <= c <= 'Z' || '0' <= c <= '9' || c == '_' || c == '-' || c == '.'
  }

  predicate ValidIdent(s: string) {
    s != "" && forall i | 0 <= i < |s| :: IdentChar(s[i])
  }

  /** The pieces of a text between separators; one more than there are separators. */
  function Split(s: string, seps: set<char>): (ps: seq<string>)
    ensures ps != []
  {
    if s == "" then [""]
    else if s[0] in seps then [""] + Split(s[1..], seps)
    else
      var rest := Split(s[1..], seps);
      [[s[0]] + rest[0]] + rest[1..]
  }

  /** Where the first arrow stands. */
  function FindArrow(s: string): Option<nat> {
    if |s| < 2 then None
    else if s[0] == '-' && s[1] == '>' then Some(0)
    else
      match FindArrow(s[1..])
      case None => None
      case Some(i) => Some(i + 1)
  }

  // ---------------------------------------------------------------- the parser

  const STATEMENT_ENDS := {';', '\n'}
  const TARGET_ENDS := {','}

  function ParseTargets(lhs: string, pieces: seq<string>, stmt: string): Result<seq<FlowEdge>, string> {
    if pieces == [] then Ok([])
    else if !ValidIdent(Trim(pieces[0])) then Err(stmt)
    else
      match ParseTargets(lhs, pieces[1..], stmt)
      case Err(e) => Err(e)
      case Ok(rest) => Ok([(lhs, Trim(pieces[0]))] + rest)
  }

  /** The edges of one statement, or the statement itself as the error. */
  function ParseStatement(text: string): Result<seq<FlowEdge>, string> {
    var stmt := Trim(text);
    if stmt == "" then Ok([]) else
      match FindArrow(stmt)
      case None => if ValidIdent(Trim(stmt)) then Ok([]) else Err(stmt)
      case Some(i) =>
        ArrowFound(stmt);
        var lhs := Trim(stmt[..i]);
        if ValidIdent(lhs) then ParseTargets(lhs, Split(stmt[i + 2..], TARGET_ENDS), stmt) else Err(stmt)
  }

  function ParseStatements(pieces: seq<string>): Result<seq<FlowEdge>, string> {
    if pieces == [] then Ok([]) else
      match ParseStatement(pieces[0])
      case Err(e) => Err(e)
      case Ok(edges) =>
        match ParseStatements(pieces[1..])
        case Err(e) => Err(e)
        case Ok(rest) => Ok(edges + rest)
  }

  function ParseFlow(flow: string): Result<seq<FlowEdge>, string> {
    ParseStatements(Split(flow, STATEMENT_ENDS))
  }

  lemma {:induction false} ArrowFound(s: string)
    ensures var i := FindArrow(s);
            && (i.Some? ==> i.value + 2 <= |s| && s[i.value] == '-' && s[i.value + 1] == '>'
                            && s == s[..i.value] + "->" + s[i.value + 2..])
    decreases |s|
  {
    if |s| >= 2 && !(s[0] == '-' && s[1] == '>') {
      ArrowFound(s[1..]);
    }
  }

  function Prepend(edges: seq<FlowEdge>, r: Result<seq<FlowEdge>, string>): Result<seq<FlowEdge>, string> {
    match r
    case Err(e) => Err(e)
    case Ok(rest) => Ok(edges + rest)
  }

  lemma {:induction false} PrependTwice(a: seq<FlowEdge>, b: seq<FlowEdge>, r: Result<seq<FlowEdge>, string>)
    ensures Prepend(a, Prepend(b, r)) == Prepend(a + b, r)
    ensures Prepend([], r) == r
  {
    if r.Ok? {
      assert a + (b + r.value) == (a + b) + r.value;
      assert [] + r.value == r.value;
    }
  }

  lemma {:induction false} TargetsUnfold(lhs: string, targets: seq<string>, stmt: string, j: nat, edges: seq<FlowEdge>)
    requires j < |targets| && ValidIdent(Trim(targets[j]))
    ensures Prepend(edges, ParseTargets(lhs, targets[j..], stmt))
            == Prepend(edges + [(lhs, Trim(targets[j]))], ParseTargets(lhs, targets[j + 1..], stmt))
  {
    assert targets[j..][1..] == targets[j + 1..];
    PrependTwice(edges, [(lhs, Trim(targets[j]))], ParseTargets(lhs, targets[j + 1..], stmt));
  }

  lemma {:induction false} StatementsUnfold(pieces: seq<string>, k: nat, edges: seq<FlowEdge>)
    requires k < |pieces|
    ensures Prepend(edges, ParseStatements(pieces[k..]))
            == match ParseStatement(pieces[k])
               case Err(e) => Err(e)
               case Ok(more) => Prepend(edges + more, ParseStatements(pieces[k + 1..]))
  {
    assert pieces[k..][1..] == pieces[k + 1..];
    var r := ParseStatement(pieces[k]);
    if r.Ok? {
      PrependTwice(edges, r.value, ParseStatements(pieces[k + 1..]));
    }
  }

  method ParseTargetList(lhs: string, targets: seq<string>, stmt: string) returns (r: Result<seq<FlowEdge>, string>)
    ensures r == ParseTargets(lhs, targets, stmt)
  {
    var edges: seq<FlowEdge> := [];
    var j := 0;
    PrependTwice([], [], ParseTargets(lhs, targets, stmt));
    assert targets[0..] == targets;
    while j < |targets|
      invariant 0 <= j <= |targets|
      invariant ParseTargets(lhs, targets, stmt) == Prepend(edges, ParseTargets(lhs, targets[j..], stmt))
    {
      var target := Trim(targets[j]);
      if !ValidIdent(target) {
        assert targets[j..][0] == targets[j];
        return Err(stmt);
      }
      TargetsUnfold(lhs, targets, stmt, j, edges);
      edges := edges + [(lhs, target)];
      j := j + 1;
    }
    assert targets[j..] == [] && edges + [] == edges;
    r := Ok(edges);
  }

  method ParseFlowText(flow: string) returns (r: Result<seq<FlowEdge>, string>)
    ensures r == ParseFlow(flow)
  {
    var edges: seq<FlowEdge> := [];
    var pieces := Split(flow, STATEMENT_ENDS);
    var k := 0;
    PrependTwice([], [], ParseStatements(pieces));
    assert pieces[0..] == pieces;
    while k < |pieces|
      invariant 0 <= k <= |pieces|
      invariant ParseFlow(flow) == Prepend(edges, ParseStatements(pieces[k..]))
    {
      StatementsUnfold(pieces, k, edges);
      var stmt := Trim(pieces[k]);
      if stmt != "" {
        var arrow := FindArrow(stmt);
        ArrowFound(stmt);
        var lhs := if arrow.Some? then Trim(stmt[..arrow.value]) else Trim(stmt);
        if !ValidIdent(lhs) {
          return Err(stmt);
        }
        if arrow.Some? {
          var more := ParseTargetList(lhs, Split(stmt[arrow.value + 2..], TARGET_ENDS), stmt);
          if more.Err? {
            return more;
          }
          edges := edges + more.value;
        } else {
          assert edges + [] == edges;
        }
      } else {
        assert edges + [] == edges;
      }
      k := k + 1;
    }
    assert pieces[k..] == [] && edges + [] == edges;
    r := Ok(edges);
  }

  // ---------------------------------------------------------------- what parses is sound

  /** Every edge ever returned has two valid identifiers. */
  lemma {:induction false} TargetsAreIdents(lhs: string, pieces: seq<string>, stmt: string)
    requires ValidIdent(lhs)
    ensures var r := ParseTargets(lhs, pieces, stmt);
            r.Ok? ==> forall e | e in r.value :: ValidIdent(e.0) && ValidIdent(e.1)
    decreases |pieces|
  {
    if pieces != [] {
      TargetsAreIdents(lhs, pieces[1..], stmt);
    }
  }

  lemma {:induction false} StatementsAreIdents(pieces: seq<string>)
    ensures var r := ParseStatements(pieces);
            r.Ok? ==> forall e | e in r.value :: ValidIdent(e.0) && ValidIdent(e.1)
    decreases |pieces|
  {
    if pieces != [] {
      StatementsAreIdents(pieces[1..]);
      var stmt := Trim(pieces[0]);
      var arrow := FindArrow(stmt);
      ArrowFound(stmt);
      if arrow.Some? && ValidIdent(Trim(stmt[..arrow.value])) {
        TargetsAreIdents(Trim(stmt[..arrow.value]), Split(stmt[arrow.value + 2..], TARGET_ENDS), stmt);
      }
    }
  }

  lemma {:induction false} EdgesAreIdents(flow: string)
    ensures ParseFlow(flow).Ok? ==> forall e | e in ParseFlow(flow).value :: ValidIdent(e.0) && ValidIdent(e.1)
  {
    StatementsAreIdents(Split(flow, STATEMENT_ENDS));
  }

  // ---------------------------------------------------------------- the grammar

  /** An identifier with the blanks around it. */
  datatype Token = Token(before: string, text: string, after: string)

  /** A blank line, a lone participant, or a participant with its targets. */
  datatype Statement = Blank(pad: string) | Flow(node: Token, targets: seq<Token>)

  /** White space that does not end a statement. */
  predicate IsPad(s: string) {
    forall i | 0 <= i < |s| :: IsSpace(s[i]) && s[i] != '\n'
  }

  predicate TokenOk(t: Token) {
    IsPad(t.before) && ValidIdent(t.text) && IsPad(t.after)
  }

  predicate StatementOk(s: Statement) {
    match s
    case Blank(pad) => IsPad(pad)
    case Flow(node, targets) => TokenOk(node) && forall t | t in targets :: TokenOk(t)
  }

  function Show(t: Token): string {
    t.before + t.text + t.after
  }

  function ShowTargets(ts: seq<Token>): string
    requires ts != []
  {
    if |ts| == 1 then Show(ts[0]) else Show(ts[0]) + "," + ShowTargets(ts[1..])
  }

  function ShowStatement(s: Statement): string {
    match s
    case Blank(pad) => pad
    case Flow(node, targets) => if targets == [] then Show(node) else Show(node) + "->" + ShowTargets(targets)
  }

  /** Statements one after the other, each end a semicolon or a line end. */
  function ShowFlow(ss: seq<Statement>, ends: seq<char>): string
    requires |ss| == |ends| + 1
  {
    if |ss| == 1 then ShowStatement(ss[0]) else ShowStatement(ss[0]) + [ends[0]] + ShowFlow(ss[1..], ends[1..])
  }

  function EdgesOfTargets(lhs: string, ts: seq<Token>): seq<FlowEdge> {
    if ts == [] then [] else [(lhs, ts[0].text)] + EdgesOfTargets(lhs, ts[1..])
  }

  function EdgesOfStatement(s: Statement): seq<FlowEdge> {
    match s
    case Blank(_) => []
    case Flow(node, targets) => EdgesOfTargets(node.text, targets)
  }

  /** The edges a list of statements denotes, in order. */
  function EdgesOfFlow(ss: seq<Statement>): seq<FlowEdge> {
    if ss == [] then [] else EdgesOfStatement(ss[0]) + EdgesOfFlow(ss[1..])
  }

  ghost predicate FlowOk(ss: seq<Statement>, ends: seq<char>) {
    && |ss| == |ends| + 1
    && (forall s | s in ss :: StatementOk(s))
    && forall c | c in ends :: c in STATEMENT_ENDS
  }

  // ---------------------------------------------------------------- trimming around tokens

  lemma {:induction false} TrimStartPad(b: string, m: string)
    requires (forall i | 0 <= i < |b| :: IsSpace(b[i])) && m != "" && !IsSpace(m[0])
    ensures TrimStart(b + m) == m
    decreases |b|
  {
    if b == "" {
      assert b + m == m;
    } else {
      assert (b + m)[1..] == b[1..] + m;
      TrimStartPad(b[1..], m);
    }
  }

  lemma {:induction false} TrimEndPad(m: string, a: string)
    requires (forall i | 0 <= i < |a| :: IsSpace(a[i])) && m != "" && !IsSpace(m[|m| - 1])
    ensures TrimEnd(m + a) == m
    decreases |a|
  {
    if a == "" {
      assert m + a == m;
    } else {
      assert (m + a)[..|m + a| - 1] == m + a[..|a| - 1];
      TrimEndPad(m, a[..|a| - 1]);
    }
  }

  /** Trimming drops the blanks around a tight text. */
  lemma {:induction false} TrimPad(b: string, m: string, a: string)
    requires IsPad(b) && IsPad(a) && m != "" && Tight(m)
    ensures Trim(b + m + a) == m
  {
    assert b + m + a == b + (m + a);
    TrimStartPad(b, m + a);
    TrimEndPad(m, a);
  }

  lemma {:induction false} TrimBlank(pad: string)
    requires forall i | 0 <= i < |pad| :: IsSpace(pad[i])
    ensures Trim(pad) == ""
    decreases |pad|
  {
    if pad != "" {
      TrimBlank(pad[1..]);
    }
  }

  lemma {:induction false} IdentIsTight(s: string)
    requires ValidIdent(s)
    ensures Tight(s) && (forall i | 0 <= i < |s| :: s[i] != '>' && s[i] != ',' && s[i] !in STATEMENT_ENDS)
  {
  }

  // ---------------------------------------------------------------- splitting

  predicate Free(s: string, seps: set<char>) {
    forall i | 0 <= i < |s| :: s[i] !in seps
  }

  lemma {:induction false} SplitFree(s: string, seps: set<char>)
    requires Free(s, seps)
    ensures Split(s, seps) == [s]
    decreases |s|
  {
    if s != "" {
      SplitFree(s[1..], seps);
      assert s == [s[0]] + s[1..];
    }
  }

  lemma {:induction false} SplitFirst(s: string, c: char, rest: string, seps: set<char>)
    requires Free(s, seps) && c in seps
    ensures Split(s + [c] + rest, seps) == [s] + Split(rest, seps)
    decreases |s|
  {
    var all := s + [c] + rest;
    if s == "" {
      assert all[1..] == rest;
    } else {
      assert all[1..] == s[1..] + [c] + rest;
      SplitFirst(s[1..], c, rest, seps);
      assert s == [s[0]] + s[1..];
    }
  }

  lemma {:induction false} ArrowAfter(u: string, v: string)
    requires Free(u, {'>'})
    ensures FindArrow(u + "->" + v) == Some(|u|)
    decreases |u|
  {
    var s := u + "->" + v;
    if u != "" {
      assert s[1..] == u[1..] + "->" + v;
      ArrowAfter(u[1..], v);
      assert s[1] != '>';
    }
  }

  lemma {:induction false} NoArrow(u: string)
    requires Free(u, {'>'})
    ensures FindArrow(u) == None
    decreases |u|
  {
    if |u| >= 2 {
      NoArrow(u[1..]);
    }
  }

  // ---------------------------------------------------------------- parsing what was shown

  lemma {:induction false} TokenReads(t: Token)
    requires TokenOk(t)
    ensures Trim(Show(t)) == t.text && Free(Show(t), {'>', ','} + STATEMENT_ENDS)
  {
    IdentIsTight(t.text);
    TrimPad(t.before, t.text, t.after);
  }

  function ShowAll(ts: seq<Token>): (ps: seq<string>)
    ensures |ps| == |ts|
  {
    if ts == [] then [] else [Show(ts[0])] + ShowAll(ts[1..])
  }

  lemma {:induction false} TargetsSplit(ts: seq<Token>)
    requires ts != [] && forall t | t in ts :: TokenOk(t)
    ensures Split(ShowTargets(ts), TARGET_ENDS) == ShowAll(ts)
    ensures Free(ShowTargets(ts), STATEMENT_ENDS)
    decreases |ts|
  {
    TokenReads(ts[0]);
    if |ts| == 1 {
      SplitFree(Show(ts[0]), TARGET_ENDS);
    } else {
      TargetsSplit(ts[1..]);
      SplitFirst(Show(ts[0]), ',', ShowTargets(ts[1..]), TARGET_ENDS);
    }
  }

  lemma {:induction false} TargetsRead(lhs: string, ts: seq<Token>, stmt: string)
    requires forall t | t in ts :: TokenOk(t)
    ensures ParseTargets(lhs, ShowAll(ts), stmt) == Ok(EdgesOfTargets(lhs, ts))
    decreases |ts|
  {
    if ts != [] {
      TokenReads(ts[0]);
      TargetsRead(lhs, ts[1..], stmt);
    }
  }

  /** The targets with the blanks after the last one dropped. */
  function Closed(ts: seq<Token>): (cs: seq<Token>)
    requires ts != []
    ensures |cs| == |ts|
  {
    ts[|ts| - 1 := ts[|ts| - 1].(after := "")]
  }

  lemma {:induction false} ShowClosed(ts: seq<Token>)
    requires ts != []
    ensures ShowTargets(ts) == ShowTargets(Closed(ts)) + ts[|ts| - 1].after
    decreases |ts|
  {
    if |ts| == 1 {
      assert Show(Closed(ts)[0]) + ts[0].after == Show(ts[0]);
    } else {
      ShowClosed(ts[1..]);
      assert Closed(ts)[1..] == Closed(ts[1..]);
      assert Show(ts[0]) + "," + (ShowTargets(Closed(ts[1..])) + ts[|ts| - 1].after)
             == (Show(ts[0]) + "," + ShowTargets(Closed(ts[1..]))) + ts[|ts| - 1].after;
    }
  }

  lemma {:induction false} ShowClosedEnds(ts: seq<Token>)
    requires ts != [] && TokenOk(ts[|ts| - 1])
    ensures var s := ShowTargets(Closed(ts)); s != "" && !IsSpace(s[|s| - 1])
    decreases |ts|
  {
    if |ts| > 1 {
      ShowClosedEnds(ts[1..]);
      assert Closed(ts)[1..] == Closed(ts[1..]);
    } else {
      IdentIsTight(ts[0].text);
    }
  }

  lemma {:induction false} EdgesOfClosed(lhs: string, ts: seq<Token>)
    requires ts != []
    ensures EdgesOfTargets(lhs, Closed(ts)) == EdgesOfTargets(lhs, ts)
    decreases |ts|
  {
    if |ts| > 1 {
      EdgesOfClosed(lhs, ts[1..]);
      assert Closed(ts)[1..] == Closed(ts[1..]);
    }
  }

  /** The statement a trimmed arrow text leaves, and its two sides. */
  lemma {:induction false} ArrowSides(node: Token, tail: string, after: string)
    requires TokenOk(node) && tail != "" && !IsSpace(tail[|tail| - 1]) && IsPad(after)
    ensures var stmt := node.text + node.after + "->" + tail;
            && Trim(node.before + stmt + after) == stmt
            && FindArrow(stmt) == Some(|node.text + node.after|)
            && stmt[..|node.text + node.after|] == node.text + node.after
            && stmt[|node.text + node.after| + 2..] == tail
            && Trim(node.text + node.after) == node.text
  {
    var lhs := node.text + node.after;
    var stmt := lhs + "->" + tail;
    IdentIsTight(node.text);
    assert stmt[0] == node.text[0] && stmt[|stmt| - 1] == tail[|tail| - 1];
    TrimPad(node.before, stmt, after);
    ArrowAfter(lhs, tail);
    assert lhs == "" + node.text + node.after;
    TrimPad("", node.text, node.after);
  }

  lemma {:induction false} ClosedOk(ts: seq<Token>)
    requires ts != [] && forall t | t in ts :: TokenOk(t)
    ensures forall t | t in Closed(ts) :: TokenOk(t)
  {
    forall t | t in Closed(ts) ensures TokenOk(t) {
      var i :| 0 <= i < |Closed(ts)| && Closed(ts)[i] == t;
      assert ts[i] in ts;
    }
  }

  lemma {:induction false} ArrowReads(node: Token, ts: seq<Token>)
    requires TokenOk(node) && ts != [] && forall t | t in ts :: TokenOk(t)
    ensures ParseStatement(Show(node) + "->" + ShowTargets(ts)) == Ok(EdgesOfTargets(node.text, ts))
  {
    var cs := Closed(ts);
    var last := ts[|ts| - 1];
    var tail := ShowTargets(cs);
    var stmt := node.text + node.after + "->" + tail;
    assert last in ts;
    ShowClosed(ts);
    ShowClosedEnds(ts);
    assert Show(node) + "->" + ShowTargets(ts) == node.before + stmt + last.after;
    ArrowSides(node, tail, last.after);
    ClosedOk(ts);
    TargetsSplit(cs);
    TargetsRead(node.text, cs, stmt);
    EdgesOfClosed(node.text, ts);
  }

  lemma {:induction false} StatementReads(s: Statement)
    requires StatementOk(s)
    ensures ParseStatement(ShowStatement(s)) == Ok(EdgesOfStatement(s))
  {
    match s
    case Blank(pad) => TrimBlank(pad);
    case Flow(node, targets) =>
      if targets == [] {
        TokenReads(node);
        IdentIsTight(node.text);
        NoArrow(node.text);
        TrimIsTight(node.text);
      } else {
        ArrowReads(node, targets);
      }
  }

  lemma {:induction false} StatementIsFree(s: Statement)
    requires StatementOk(s)
    ensures Free(ShowStatement(s), STATEMENT_ENDS)
  {
    if s.Flow? {
      TokenReads(s.node);
      if s.targets != [] {
        TargetsSplit(s.targets);
      }
    }
  }

  function ShowEach(ss: seq<Statement>): (ps: seq<string>)
    ensures |ps| == |ss|
  {
    if ss == [] then [] else [ShowStatement(ss[0])] + ShowEach(ss[1..])
  }

  lemma {:induction false} FlowSplits(ss: seq<Statement>, ends: seq<char>)
    requires FlowOk(ss, ends)
    ensures Split(ShowFlow(ss, ends), STATEMENT_ENDS) == ShowEach(ss)
    decreases |ss|
  {
    StatementIsFree(ss[0]);
    if |ss| == 1 {
      SplitFree(ShowStatement(ss[0]), STATEMENT_ENDS);
    } else {
      FlowSplits(ss[1..], ends[1..]);
      SplitFirst(ShowStatement(ss[0]), ends[0], ShowFlow(ss[1..], ends[1..]), STATEMENT_ENDS);
    }
  }

  lemma {:induction false} EachReads(ss: seq<Statement>)
    requires forall s | s in ss :: StatementOk(s)
    ensures ParseStatements(ShowEach(ss)) == Ok(EdgesOfFlow(ss))
    decreases |ss|
  {
    if ss != [] {
      StatementReads(ss[0]);
      EachReads(ss[1..]);
    }
  }

  /** Parsing inverts showing: whatever the layout, the edges come back in order. */
  lemma {:induction false} FlowRoundTrip(ss: seq<Statement>, ends: seq<char>)
    requires FlowOk(ss, ends)
    ensures ParseFlow(ShowFlow(ss, ends)) == Ok(EdgesOfFlow(ss))
  {
    FlowSplits(ss, ends);
    EachReads(ss);
  }

  // ---------------------------------------------------------------- only the grammar parses

  lemma {:induction false} SpacesCase(a: string, b: string)
    requires (forall i | 0 <= i < |a| :: IsSpace(a[i])) && forall i | 0 <= i < |b| :: IsSpace(b[i])
    ensures forall i | 0 <= i < |a + b| :: IsSpace((a + b)[i])
  {
  }

  lemma {:induction false} TrimmedStart(s: string) returns (b: string)
    requires Free(s, {'\n'})
    ensures s == b + TrimStart(s) && IsPad(b)
    decreases |s|
  {
    b := "";
    if s != "" && IsSpace(s[0]) {
      b := TrimmedStart(s[1..]);
      assert s == [s[0]] + s[1..];
      b := [s[0]] + b;
    }
  }

  lemma {:induction false} TrimmedEnd(s: string) returns (a: string)
    requires Free(s, {'\n'})
    ensures s == TrimEnd(s) + a && IsPad(a)
    decreases |s|
  {
    a := "";
    if s != "" && IsSpace(s[|s| - 1]) {
      a := TrimmedEnd(s[..|s| - 1]);
      assert s == s[..|s| - 1] + [s[|s| - 1]];
      a := a + [s[|s| - 1]];
    }
  }

  /** A text is its trimmed middle between two blank ends. */
  lemma {:induction false} TrimParts(s: string) returns (b: string, a: string)
    requires Free(s, {'\n'})
    ensures s == b + Trim(s) + a && IsPad(b) && IsPad(a)
  {
    b := TrimmedStart(s);
    var m := TrimStart(s);
    assert m == s[|b|..];
    FreeParts(s, |b|, |s|, {'\n'});
    a := TrimmedEnd(m);
    assert b + (TrimEnd(m) + a) == b + TrimEnd(m) + a;
  }

  lemma {:induction false} TokenOf(piece: string) returns (t: Token)
    requires Free(piece, {'\n'}) && ValidIdent(Trim(piece))
    ensures TokenOk(t) && Show(t) == piece && t.text == Trim(piece)
  {
    var b, a := TrimParts(piece);
    t := Token(b, Trim(piece), a);
  }

  lemma {:induction false} SplitPieceIsFree(s: string, seps: set<char>, also: set<char>)
    requires Free(s, also)
    ensures forall p | p in Split(s, seps) :: Free(p, seps + also)
    decreases |s|
  {
    if s != "" {
      SplitPieceIsFree(s[1..], seps, also);
      assert Split(s[1..], seps)[0] in Split(s[1..], seps);
    }
  }

  /** The targets behind an arrow, from their parsed pieces. */
  lemma {:induction false} TargetsOf(lhs: string, pieces: seq<string>, stmt: string) returns (ts: seq<Token>)
    requires ParseTargets(lhs, pieces, stmt).Ok? && forall p | p in pieces :: Free(p, {'\n'})
    ensures (forall t | t in ts :: TokenOk(t)) && ShowAll(ts) == pieces
    ensures EdgesOfTargets(lhs, ts) == ParseTargets(lhs, pieces, stmt).value
    decreases |pieces|
  {
    ts := [];
    if pieces != [] {
      var t := TokenOf(pieces[0]);
      var rest := TargetsOf(lhs, pieces[1..], stmt);
      ts := [t] + rest;
    }
  }

  /** The separators of a text, in order. */
  function Separators(s: string, seps: set<char>): (cs: seq<char>)
    ensures |cs| + 1 == |Split(s, seps)|
    ensures forall c | c in cs :: c in seps
  {
    if s == "" then [] else (if s[0] in seps then [s[0]] else []) + Separators(s[1..], seps)
  }

  function Join(ps: seq<string>, cs: seq<char>): string
    requires |ps| == |cs| + 1
  {
    if cs == [] then ps[0] else ps[0] + [cs[0]] + Join(ps[1..], cs[1..])
  }

  lemma {:induction false} JoinHead(c: char, ps: seq<string>, cs: seq<char>)
    requires |ps| == |cs| + 1
    ensures Join([[c] + ps[0]] + ps[1..], cs) == [c] + Join(ps, cs)
  {
    var qs := [[c] + ps[0]] + ps[1..];
    assert qs[1..] == ps[1..];
    if cs != [] {
      assert ([c] + ps[0]) + [cs[0]] + Join(ps[1..], cs[1..]) == [c] + (ps[0] + [cs[0]] + Join(ps[1..], cs[1..]));
    }
  }

  /** Joining what was split at the same separators gives the text back. */
  lemma {:induction false} SplitJoins(s: string, seps: set<char>)
    ensures Join(Split(s, seps), Separators(s, seps)) == s
    decreases |s|
  {
    if s != "" {
      var ps, cs := Split(s[1..], seps), Separators(s[1..], seps);
      SplitJoins(s[1..], seps);
      assert s == [s[0]] + s[1..];
      if s[0] in seps {
        assert ([""] + ps)[1..] == ps && ([s[0]] + cs)[1..] == cs;
        assert "" + [s[0]] + s[1..] == s;
      } else {
        assert [] + cs == cs;
        JoinHead(s[0], ps, cs);
      }
    }
  }

  lemma {:induction false} TargetsAreJoined(ts: seq<Token>, cs: seq<char>)
    requires |ts| == |cs| + 1 && forall i | 0 <= i < |cs| :: cs[i] == ','
    ensures ShowTargets(ts) == Join(ShowAll(ts), cs)
    decreases |ts|
  {
    if cs != [] {
      assert forall i | 0 <= i < |cs[1..]| :: cs[1..][i] == cs[i + 1];
      TargetsAreJoined(ts[1..], cs[1..]);
      assert cs[0] == ',';
    }
  }

  lemma {:induction false} ShowPieces(s: string, ts: seq<Token>)
    requires ShowAll(ts) == Split(s, TARGET_ENDS)
    ensures ts != [] && ShowTargets(ts) == s
  {
    var cs := Separators(s, TARGET_ENDS);
    assert forall i | 0 <= i < |cs| :: cs[i] in cs;
    SplitJoins(s, TARGET_ENDS);
    TargetsAreJoined(ts, cs);
  }

  lemma {:induction false} FlowIsJoined(ss: seq<Statement>, ends: seq<char>)
    requires |ss| == |ends| + 1
    ensures ShowFlow(ss, ends) == Join(ShowEach(ss), ends)
    decreases |ss|
  {
    if ends != [] {
      FlowIsJoined(ss[1..], ends[1..]);
    }
  }

  function PadLast(ts: seq<Token>, a: string): (ps: seq<Token>)
    requires ts != []
    ensures |ps| == |ts|
  {
    ts[|ts| - 1 := ts[|ts| - 1].(after := ts[|ts| - 1].after + a)]
  }

  lemma {:induction false} ShowPadLast(lhs: string, ts: seq<Token>, a: string)
    requires ts != []
    ensures ShowTargets(PadLast(ts, a)) == ShowTargets(ts) + a
    ensures EdgesOfTargets(lhs, PadLast(ts, a)) == EdgesOfTargets(lhs, ts)
    decreases |ts|
  {
    if |ts| == 1 {
      assert Show(PadLast(ts, a)[0]) == Show(ts[0]) + a;
    } else {
      ShowPadLast(lhs, ts[1..], a);
      assert PadLast(ts, a)[1..] == PadLast(ts[1..], a);
      assert Show(ts[0]) + "," + (ShowTargets(ts[1..]) + a) == (Show(ts[0]) + "," + ShowTargets(ts[1..])) + a;
    }
  }

  lemma {:induction false} FreeParts(s: string, i: nat, j: nat, seps: set<char>)
    requires Free(s, seps) && i <= j <= |s|
    ensures Free(s[i..j], seps)
  {
  }

  lemma {:induction false} PadLastOk(ts: seq<Token>, a: string)
    requires ts != [] && IsPad(a) && forall t | t in ts :: TokenOk(t)
    ensures forall t | t in PadLast(ts, a) :: TokenOk(t)
  {
    forall t | t in PadLast(ts, a) ensures TokenOk(t) {
      var k :| 0 <= k < |ts| && PadLast(ts, a)[k] == t;
      assert ts[k] in ts;
    }
  }

  lemma {:induction false} ArrowText(text: string, b: string, a: string, lhs: string, tail: string, node: Token,
                                     ts: seq<Token>)
    requires text == b + (lhs + "->" + tail) + a && ts != []
    requires Show(node) == lhs && ShowTargets(ts) == tail + a
    ensures Show(node.(before := b + node.before)) + "->" + ShowTargets(ts) == text
  {
    assert Show(node.(before := b + node.before)) == b + lhs;
  }

  lemma {:induction false} ArrowStatementOf(text: string, b: string, lhs: string, tail: string, a: string)
    returns (s: Statement)
    requires text == b + (lhs + "->" + tail) + a && IsPad(b) && IsPad(a) && Free(lhs, STATEMENT_ENDS)
             && Free(tail, STATEMENT_ENDS)
    requires ValidIdent(Trim(lhs)) && ParseTargets(Trim(lhs), Split(tail, TARGET_ENDS), lhs + "->" + tail).Ok?
    ensures StatementOk(s) && ShowStatement(s) == text
    ensures EdgesOfStatement(s) == ParseTargets(Trim(lhs), Split(tail, TARGET_ENDS), lhs + "->" + tail).value
  {
    var node := TokenOf(lhs);
    SplitPieceIsFree(tail, TARGET_ENDS, STATEMENT_ENDS);
    var ts := TargetsOf(node.text, Split(tail, TARGET_ENDS), lhs + "->" + tail);
    ShowPieces(tail, ts);
    ShowPadLast(node.text, ts, a);
    PadLastOk(ts, a);
    ArrowText(text, b, a, lhs, tail, node, PadLast(ts, a));
    s := Flow(node.(before := b + node.before), PadLast(ts, a));
  }

  lemma {:induction false} StatementOf(text: string) returns (s: Statement)
    requires ParseStatement(text).Ok? && Free(text, STATEMENT_ENDS)
    ensures StatementOk(s) && ShowStatement(s) == text && EdgesOfStatement(s) == ParseStatement(text).value
  {
    var stmt := Trim(text);
    var b, a := TrimParts(text);
    if stmt == "" {
      s := Blank(text);
      SpacesCase(b, a);
      assert text == b + a;
    } else {
      var arrow := FindArrow(stmt);
      ArrowFound(stmt);
      if arrow.None? {
        TrimTwice(text);
        s := Flow(Token(b, stmt, a), []);
      } else {
        var i := arrow.value;
        assert text[|b|..|b| + |stmt|] == stmt;
        FreeParts(text, |b|, |b| + |stmt|, STATEMENT_ENDS);
        FreeParts(stmt, 0, i, STATEMENT_ENDS);
        FreeParts(stmt, i + 2, |stmt|, STATEMENT_ENDS);
        s := ArrowStatementOf(text, b, stmt[..i], stmt[i + 2..], a);
      }
    }
  }

  lemma {:induction false} StatementsOf(pieces: seq<string>) returns (ss: seq<Statement>)
    requires ParseStatements(pieces).Ok? && forall p | p in pieces :: Free(p, STATEMENT_ENDS)
    ensures (forall s | s in ss :: StatementOk(s)) && ShowEach(ss) == pieces
    ensures EdgesOfFlow(ss) == ParseStatements(pieces).value
    decreases |pieces|
  {
    ss := [];
    if pieces != [] {
      var s := StatementOf(pieces[0]);
      var rest := StatementsOf(pieces[1..]);
      ss := [s] + rest;
    }
  }

  /**
   * The parser accepts exactly the grammar: a text parses if and only if it shows a list of
   * well-formed statements, and then it denotes their edges.
   */
  lemma {:induction false} AcceptsExactlyTheGrammar(flow: string)
    ensures ParseFlow(flow).Ok? <==> exists ss, ends :: FlowOk(ss, ends) && ShowFlow(ss, ends) == flow
    ensures forall ss, ends | FlowOk(ss, ends) && ShowFlow(ss, ends) == flow :: ParseFlow(flow) == Ok(EdgesOfFlow(ss))
  {
    if ParseFlow(flow).Ok? {
      SplitPieceIsFree(flow, STATEMENT_ENDS, {});
      var ss := StatementsOf(Split(flow, STATEMENT_ENDS));
      var ends := Separators(flow, STATEMENT_ENDS);
      SplitJoins(flow, STATEMENT_ENDS);
      FlowIsJoined(ss, ends);
      assert FlowOk(ss, ends) && ShowFlow(ss, ends) == flow;
    }
    forall ss, ends | FlowOk(ss, ends) && ShowFlow(ss, ends) == flow ensures ParseFlow(flow) == Ok(EdgesOfFlow(ss)) {
      FlowRoundTrip(ss, ends);
    }
  }

  // ---------------------------------------------------------------- what a refusal names

  /** The text is one well-formed statement. */
  ghost predicate IsStatement(text: string) {
    exists s :: StatementOk(s) && ShowStatement(s) == text
  }

  lemma {:induction false} StatementExactly(text: string)
    requires Free(text, STATEMENT_ENDS)
    ensures IsStatement(text) <==> ParseStatement(text).Ok?
  {
    if ParseStatement(text).Ok? {
      var s := StatementOf(text);
    }
    if s :| StatementOk(s) && ShowStatement(s) == text {
      StatementReads(s);
    }
  }

  lemma {:induction false} RefusedStatement(text: string)
    ensures ParseStatement(text).Err? ==> ParseStatement(text).error == Trim(text)
  {
    var stmt := Trim(text);
    var arrow := FindArrow(stmt);
    if arrow.Some? {
      ArrowFound(stmt);
      RefusedTargets(Trim(stmt[..arrow.value]), Split(stmt[arrow.value + 2..], TARGET_ENDS), stmt);
    }
  }

  lemma {:induction false} RefusedTargets(lhs: string, pieces: seq<string>, stmt: string)
    ensures ParseTargets(lhs, pieces, stmt).Err? ==> ParseTargets(lhs, pieces, stmt).error == stmt
    decreases |pieces|
  {
    if pieces != [] {
      RefusedTargets(lhs, pieces[1..], stmt);
    }
  }

  lemma {:induction false} FirstRefused(pieces: seq<string>) returns (k: nat)
    requires ParseStatements(pieces).Err?
    ensures k < |pieces| && ParseStatement(pieces[k]).Err? && ParseStatements(pieces).error == Trim(pieces[k])
    ensures forall i | 0 <= i < k :: ParseStatement(pieces[i]).Ok?
    decreases |pieces|
  {
    k := 0;
    RefusedStatement(pieces[0]);
    if ParseStatement(pieces[0]).Ok? {
      var j := FirstRefused(pieces[1..]);
      k := j + 1;
      forall i | 0 <= i < k ensures ParseStatement(pieces[i]).Ok? {
        assert i > 0 ==> pieces[i] == pieces[1..][i - 1];
      }
    }
  }

  /** A refused text names its first piece that is no statement, without the blanks around it. */
  lemma {:induction false} RefusalNamesStatement(flow: string) returns (k: nat)
    requires ParseFlow(flow).Err?
    ensures var pieces := Split(flow, STATEMENT_ENDS);
            && k < |pieces| && ParseFlow(flow).error == Trim(pieces[k]) && !IsStatement(pieces[k])
            && forall i | 0 <= i < k :: IsStatement(pieces[i])
  {
    var pieces := Split(flow, STATEMENT_ENDS);
    SplitPieceIsFree(flow, STATEMENT_ENDS, {});
    k := FirstRefused(pieces);
    forall i | 0 <= i <= k ensures IsStatement(pieces[i]) <==> ParseStatement(pieces[i]).Ok? {
      assert pieces[i] in pieces;
      StatementExactly(pieces[i]);
    }
  }
}
