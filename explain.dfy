/**
 * The EXPLAIN text reader (plan/explain.go): the line collector that sorts every line of
 * the report into node headers, SubPlan headers, the closing sections and the lines that
 * belong to the last node; the tree builder; and InitPlan, which runs the collector, builds
 * the tree, reads every node and runs the checks.
 *
 * What the collector does to the report is specified on values: a `Collected` record holds
 * what it has gathered so far, with node and plan lines as `NodeText`/`PlanText`, and
 * `ParseLine`/`ParseFrom` give the effect of one line and of the rest of the report. The
 * `Explain` class does the same work on objects, and its methods are proved to follow those
 * functions.
 */
module PlanExplain {
  import opened Wrappers
  import opened GoStrings
  import opened Pattern
  import opened PlanLines
  import opened PlanNode
  import opened NodeLines
  import opened PlanTree
  import opened Checker

  /** Why InitPlan gives up; a Go run-time panic is one of them. */
  datatype Failure =
    | FirstNodeIndent(line: string)   // "Detected wrong indentation on first plan node"
    | NodeIndent(line: string)        // "Detected wrong indentation on line"
    | NoNodes                         // "Could not find any nodes in plan"
    | UnableToParseNode               // parseNodeExtraInfo's error
    | Panic(reason: string)

  const SliceBounds := "slice bounds out of range"
  const IndexOutOfRange := "index out of range"
  const DivideByZero := "integer divide by zero"

  // ---------------------------------------------------------------------------------------
  // Sorting the lines
  // ---------------------------------------------------------------------------------------

  /** What `parseline` does with a line, in the order it tries the shapes. */
  datatype LineKind =
    | Noise | NodeHeader | SubPlanHeader | SliceStatsHeader | StatementStatsHeader
    | SettingsLine | OptimizerLine | RuntimeLine | NodeDetail | Unused

  /** Blank lines, the "QUERY PLAN" title and the dashed rule under it. */
  predicate IsNoise(line: string) {
    |TrimSpace(line)| == 0 || Contains(line, "QUERY PLAN") || (|line| > 0 && line[0] == '-')
  }

  /**
   * The shape tests of `parseline`, first match wins. A line deeper than column 1 that fits
   * none of them belongs to the last node while no closing section has started.
   */
  function Classify(line: string, finished: bool): LineKind {
    if IsNoise(line) then Noise
    else if NodeShape(line).Some? then NodeHeader
    else if Contains(line, SubPlanMarker) then SubPlanHeader
    else if Contains(line, SliceStatsMarker) then SliceStatsHeader
    else if Contains(line, StatementStatsMarker) then StatementStatsHeader
    else if Contains(line, SettingsMarker) then SettingsLine
    else if Contains(line, OptimizerMarker) then OptimizerLine
    else if Contains(line, RuntimeMarker) then RuntimeLine
    else if GetIndent(line) > 1 && !finished then NodeDetail
    else Unused
  }

  /** A node line as collected: its indentation, its line number and its lines. */
  datatype NodeText = NodeText(indent: int, offset: int, extraInfo: seq<string>)

  /** A plan line as collected (createPlan). */
  datatype PlanText = PlanText(name: string, indent: int, offset: int)

  /** What the collector has gathered, and where it is: the fields of `Explain` it writes. */
  datatype Collected = Collected(
    nodes: seq<NodeText>, plans: seq<PlanText>, sliceStats: seq<string>,
    memoryUsed: int, memoryWanted: int, settings: seq<Setting>, optimizer: string,
    optimizerStatus: string, runtime: real, offset: nat, finished: bool)

  /** A new Explain: nothing gathered, at the first line. */
  const Start := Collected([], [], [], 0, 0, [], "", "", 0.0, 0, false)

  /** createNode: the node's indentation, the current line number, and the line itself. */
  function NewNode(line: string, offset: nat): NodeText {
    NodeText(GetIndent(line), offset, [line])
  }

  /** createPlan: the line without surrounding spaces, its indentation, the current line number. */
  function NewPlan(line: string, offset: nat): PlanText {
    PlanText(Trim(line, {' '}), GetIndent(line), offset)
  }

  // ---------------------------------------------------------------------------------------
  // The closing sections
  // ---------------------------------------------------------------------------------------

  /** The first line at or after `from` that is not deeper than column 1, or `|lines|`. */
  function BlockEnd(lines: seq<string>, from: nat): (e: nat)
    requires from <= |lines|
    ensures from <= e <= |lines|
    ensures forall k | from <= k < e :: GetIndent(lines[k]) > 1
    ensures e < |lines| ==> GetIndent(lines[e]) <= 1
    decreases |lines| - from
  {
    if from == |lines| || GetIndent(lines[from]) <= 1 then from else BlockEnd(lines, from + 1)
  }

  /**
   * Where the collector goes on after a block that started below line `offset` and stopped
   * at `e`: one before the shallower line, so that line is read next; when the block runs to
   * the end of the text, the offset is left where it was.
   */
  function Resume(offset: nat, e: nat, count: nat): nat
    requires offset < e <= count
  {
    if e < count then e - 1 else offset
  }

  /** What a block parser has made of `lines`, one line at a time, starting from `s`. */
  function FoldLines<S>(s: S, lines: seq<string>, step: (S, string) -> S): S {
    if |lines| == 0 then s else step(FoldLines(s, lines[..|lines| - 1], step), lines[|lines| - 1])
  }

  /** The slice statistics lines, without surrounding white space. */
  function Trimmed(lines: seq<string>): (r: seq<string>)
    ensures |r| == |lines|
  {
    if |lines| == 0 then [] else Trimmed(lines[..|lines| - 1]) + [TrimSpace(lines[|lines| - 1])]
  }

  /** Each line of the block, trimmed, in order. */
  lemma {:induction false} TrimmedAt(lines: seq<string>, k: nat)
    requires k < |lines|
    ensures Trimmed(lines)[k] == TrimSpace(lines[k])
  {
    if k < |lines| - 1 {
      TrimmedAt(lines[..|lines| - 1], k);
    }
  }

  /** parseSliceStats' step: the line, trimmed, goes at the end. */
  function AppendTrimmed(stats: seq<string>, line: string): seq<string> {
    stats + [TrimSpace(line)]
  }

  /** Appending the trimmed lines one at a time appends them all. */
  lemma {:induction false} AppendTrimmedFold(stats: seq<string>, lines: seq<string>)
    ensures FoldLines(stats, lines, AppendTrimmed) == stats + Trimmed(lines)
  {
    if |lines| > 0 {
      AppendTrimmedFold(stats, lines[..|lines| - 1]);
    }
  }

  /** Memory figures as read: kilobytes used and wanted. */
  type Memory = (int, int)

  /**
   * parseStatementStats' step: a "Memory used" line sets the first figure, otherwise a
   * "Memory wanted" line sets the second.
   */
  function MemoryStep(m: Memory, line: string): Memory {
    var u := MemoryAmount(line, MemoryUsedShape);
    if u.Some? then (ParseInt(TrimSpace(u.value)).value, m.1)
    else
      var w := MemoryAmount(line, MemoryWantedShape);
      if w.Some? then (m.0, ParseInt(TrimSpace(w.value)).value) else m
  }

  /** The settings of a "Settings:" line, or None when a piece has no "=" (an index panic). */
  function SettingsOf(pieces: seq<string>): (r: Option<seq<Setting>>)
    ensures r.Some? ==> |r.value| == |pieces|
  {
    if |pieces| == 0 then Some([])
    else
      var init := SettingsOf(pieces[..|pieces| - 1]);
      var temp := Split(pieces[|pieces| - 1], "=");
      if |temp| < 2 || init.None? then None
      else Some(init.value + [Setting(temp[0], temp[1])])
  }

  /** One more piece with "=" adds one setting, named and valued by the two sides. */
  lemma SettingsStep(pieces: seq<string>, i: nat, done: seq<Setting>)
    requires i < |pieces| && SettingsOf(pieces[..i]) == Some(done) && |Split(pieces[i], "=")| >= 2
    ensures var temp := Split(pieces[i], "=");
      SettingsOf(pieces[..i + 1]) == Some(done + [Setting(temp[0], temp[1])])
  {
    assert pieces[..i + 1][..i] == pieces[..i];
  }

  /** A piece without "=" splits into one part only. */
  lemma SplitWithoutSeparator(piece: string)
    requires |Split(piece, "=")| < 2
    ensures !Contains(piece, "=")
  {
    var temp := Split(piece, "=");
    assert Join(temp, "=") == piece && temp == [temp[0]];
  }

  /** A piece that splits into two or more parts contains "=". */
  lemma SplitAtSeparator(piece: string)
    requires |Split(piece, "=")| >= 2
    ensures Contains(piece, "=")
  {
    var temp := Split(piece, "=");
    SplitPrefix(piece, temp);
    ContainsAt(piece, "=", |temp[0]|);
  }

  /** A piece without "=" makes parseSettings panic. */
  lemma {:induction false} MissingSeparatorFails(pieces: seq<string>, k: nat)
    requires k < |pieces| && !Contains(pieces[k], "=")
    ensures SettingsOf(pieces).None?
  {
    if k == |pieces| - 1 {
      if |Split(pieces[k], "=")| >= 2 {
        SplitAtSeparator(pieces[k]);
      }
    } else {
      var init := pieces[..|pieces| - 1];
      assert init[k] == pieces[k];
      MissingSeparatorFails(init, k);
    }
  }

  /** parseSettings panics only on a piece without "=". */
  lemma {:induction false} FailureHasNoSeparator(pieces: seq<string>)
    requires SettingsOf(pieces).None?
    ensures exists k | 0 <= k < |pieces| :: !Contains(pieces[k], "=")
  {
    var init := pieces[..|pieces| - 1];
    if |Split(pieces[|pieces| - 1], "=")| < 2 {
      SplitWithoutSeparator(pieces[|pieces| - 1]);
    } else {
      FailureHasNoSeparator(init);
      var k :| 0 <= k < |init| && !Contains(init[k], "=");
      assert init[k] == pieces[k];
    }
  }

  /** Each setting is a piece's text before its first "=", and the text after up to the next. */
  lemma {:induction false} SettingsOfPieces(pieces: seq<string>, k: nat)
    requires SettingsOf(pieces).Some? && k < |pieces|
    ensures var s := SettingsOf(pieces).value[k];
      StartsWith(pieces[k], s.name + "=" + s.value) && !Contains(s.name, "=")
  {
    var init := pieces[..|pieces| - 1];
    if k < |pieces| - 1 {
      SettingsOfPieces(init, k);
      assert init[k] == pieces[k];
    } else {
      var temp := Split(pieces[k], "=");
      SplitPrefix(pieces[k], temp);
    }
  }

  /** The first two pieces of a split, with the separator between them, start the text. */
  lemma SplitPrefix(s: string, parts: seq<string>)
    requires parts == Split(s, "=") && |parts| >= 2
    ensures StartsWith(s, parts[0] + "=" + parts[1]) && HasAt(s, |parts[0]|, "=")
  {
    var rest := parts[1..];
    assert Join(parts, "=") == parts[0] + "=" + Join(rest, "=");
    assert rest[0] == parts[1];
    if |rest| == 1 {
      assert Join(rest, "=") == parts[1];
    } else {
      assert Join(rest, "=") == parts[1] + "=" + Join(rest[1..], "=");
    }
    assert s[..|parts[0]| + 1 + |parts[1]|] == parts[0] + "=" + parts[1];
  }

  /** The optimizer value after the settings: the last "optimizer" setting's, else unchanged. */
  function OptimizerAfter(current: string, settings: seq<Setting>): string {
    if |settings| == 0 then current
    else
      var last := settings[|settings| - 1];
      if last.name == "optimizer" then last.value else OptimizerAfter(current, settings[..|settings| - 1])
  }

  /** One more setting changes the optimizer only when it names the optimizer. */
  lemma OptimizerStep(current: string, settings: seq<Setting>, s: Setting)
    ensures OptimizerAfter(current, settings + [s]) == if s.name == "optimizer" then s.value else OptimizerAfter(current, settings)
  {
    assert (settings + [s])[..|settings|] == settings;
  }

  /** Without an "optimizer" setting the value stays as it was. */
  lemma {:induction false} NoOptimizerKept(current: string, settings: seq<Setting>)
    requires forall k | 0 <= k < |settings| :: settings[k].name != "optimizer"
    ensures OptimizerAfter(current, settings) == current
  {
    if |settings| > 0 {
      var init := settings[..|settings| - 1];
      assert forall k | 0 <= k < |init| :: init[k] == settings[k];
      NoOptimizerKept(current, init);
    }
  }

  /** The last "optimizer" setting gives the value. */
  lemma {:induction false} LastOptimizerWins(current: string, settings: seq<Setting>, k: nat)
    requires k < |settings| && settings[k].name == "optimizer"
    requires forall j | k < j < |settings| :: settings[j].name != "optimizer"
    ensures OptimizerAfter(current, settings) == settings[k].value
  {
    if k < |settings| - 1 {
      var init := settings[..|settings| - 1];
      assert forall j | 0 <= j < |init| :: init[j] == settings[j];
      LastOptimizerWins(current, init, k);
    }
  }

  /** parseSettings on a line: the settings, or the panic that stops it. */
  function ParseSettings(line: string): Result<seq<Setting>, Failure> {
    var t := TrimSpace(line);
    if |t| < 11 then Failure(Panic(SliceBounds))
    else
      var s := SettingsOf(Split(t[11..], "; "));
      if s.None? then Failure(Panic(IndexOutOfRange)) else Success(s.value)
  }

  /** parseOptimizer on a line: the text after ": ", or the panic that stops it. */
  function ParseOptimizer(line: string): Result<string, Failure> {
    var t := TrimSpace(line);
    if |t| < 11 then Failure(Panic(SliceBounds))
    else
      var temp := Split(t[11..], ": ");
      if |temp| < 2 then Failure(Panic(IndexOutOfRange)) else Success(temp[1])
  }

  /** parseRuntime on a line: the third space-separated word read as a number, if it is one. */
  function ParseRuntime(current: real, line: string): Result<real, Failure> {
    var temp := Split(TrimSpace(line), " ");
    if |temp| < 3 then Failure(Panic(IndexOutOfRange))
    else
      var f := ParseFloat(temp[2]);
      Success(if f.ok then f.value else current)
  }

  // ---------------------------------------------------------------------------------------
  // One line, and the rest of the text
  // ---------------------------------------------------------------------------------------

  /** The last node with one more line below it. */
  function WithDetail(nodes: seq<NodeText>, line: string): (r: seq<NodeText>)
    requires |nodes| > 0
    ensures |r| == |nodes| && r[..|nodes| - 1] == nodes[..|nodes| - 1]
  {
    var last := nodes[|nodes| - 1];
    nodes[|nodes| - 1 := last.(extraInfo := last.extraInfo + [line])]
  }

  /**
   * A node header line: the indentation contract is checked first, then the first node
   * brings the top plan "Plan" with it, on its own line.
   */
  function ReadNodeHeader(c: Collected, line: string): (r: Result<Collected, Failure>)
    ensures r.Failure? <==> if |c.nodes| == 0 then GetIndent(line) > 1 else GetIndent(line) < 2
    ensures r.Failure? ==>
      r.error == if |c.nodes| == 0 then FirstNodeIndent(TrimRight(line, {' '})) else NodeIndent(TrimRight(line, {' '}))
    ensures r.Success? ==> r.value.nodes == c.nodes + [NewNode(line, c.offset)]
    ensures r.Success? ==> r.value.plans == c.plans + (if |c.nodes| == 0 then [NewPlan("Plan", c.offset)] else [])
  {
    var n := NewNode(line, c.offset);
    if |c.nodes| == 0 && n.indent > 1 then Failure(FirstNodeIndent(TrimRight(line, {' '})))
    else if |c.nodes| > 0 && n.indent < 2 then Failure(NodeIndent(TrimRight(line, {' '})))
    else
      var plans := if |c.nodes| == 0 then c.plans + [NewPlan("Plan", c.offset)] else c.plans;
      Success(c.(nodes := c.nodes + [n], plans := plans))
  }

  /** The indentation contract on a new node line, with `count` nodes already collected. */
  function IndentError(count: nat, line: string): (r: Option<Failure>)
    ensures r.Some? <==> if count == 0 then GetIndent(line) > 1 else GetIndent(line) < 2
  {
    if count == 0 && GetIndent(line) > 1 then Some(FirstNodeIndent(TrimRight(line, {' '})))
    else if count > 0 && GetIndent(line) < 2 then Some(NodeIndent(TrimRight(line, {' '})))
    else None
  }

  /** The lines that open a closing section. */
  predicate IsSection(k: LineKind) {
    k.SliceStatsHeader? || k.StatementStatsHeader? || k.SettingsLine? || k.OptimizerLine? || k.RuntimeLine?
  }

  /** parseSliceStats: the deeper lines below, trimmed; the collector resumes at the shallow one. */
  function SliceStatsRead(c: Collected, lines: seq<string>): (r: Collected)
    requires c.offset < |lines|
    ensures r.nodes == c.nodes && r.plans == c.plans && r.finished && c.offset <= r.offset < |lines|
  {
    var e := BlockEnd(lines, c.offset + 1);
    c.(finished := true, sliceStats := c.sliceStats + Trimmed(lines[c.offset + 1..e]),
       offset := Resume(c.offset, e, |lines|))
  }

  /** parseStatementStats: both figures start at -1 and are read off the deeper lines below. */
  function StatementStatsRead(c: Collected, lines: seq<string>): (r: Collected)
    requires c.offset < |lines|
    ensures r.nodes == c.nodes && r.plans == c.plans && r.finished && c.offset <= r.offset < |lines|
  {
    var e := BlockEnd(lines, c.offset + 1);
    var m := FoldLines((-1, -1), lines[c.offset + 1..e], MemoryStep);
    c.(finished := true, memoryUsed := m.0, memoryWanted := m.1, offset := Resume(c.offset, e, |lines|))
  }

  /** parseSettings: the settings are appended and the optimizer setting remembered. */
  function SettingsRead(c: Collected, line: string): (r: Result<Collected, Failure>)
    ensures r.Success? ==> r.value.nodes == c.nodes && r.value.plans == c.plans && r.value.finished && r.value.offset == c.offset
    ensures r.Failure? ==> r.error.Panic?
  {
    var s := ParseSettings(line);
    if s.Failure? then Failure(s.error)
    else Success(c.(finished := true, settings := c.settings + s.value, optimizer := OptimizerAfter(c.optimizer, s.value)))
  }

  /** parseOptimizer. */
  function OptimizerRead(c: Collected, line: string): (r: Result<Collected, Failure>)
    ensures r.Success? ==> r.value.nodes == c.nodes && r.value.plans == c.plans && r.value.finished && r.value.offset == c.offset
    ensures r.Failure? ==> r.error.Panic?
  {
    var s := ParseOptimizer(line);
    if s.Failure? then Failure(s.error) else Success(c.(finished := true, optimizerStatus := s.value))
  }

  /** parseRuntime. */
  function RuntimeRead(c: Collected, line: string): (r: Result<Collected, Failure>)
    ensures r.Success? ==> r.value.nodes == c.nodes && r.value.plans == c.plans && r.value.finished && r.value.offset == c.offset
    ensures r.Failure? ==> r.error.Panic?
  {
    var s := ParseRuntime(c.runtime, line);
    if s.Failure? then Failure(s.error) else Success(c.(finished := true, runtime := s.value))
  }

  /**
   * A closing section: it marks the plan finished and touches neither nodes nor plans; the
   * two statistics blocks may move the collector on past their lines.
   */
  function ReadSection(c: Collected, lines: seq<string>, kind: LineKind): (r: Result<Collected, Failure>)
    requires c.offset < |lines| && IsSection(kind)
    ensures r.Success? ==> r.value.nodes == c.nodes && r.value.plans == c.plans && r.value.finished
    ensures r.Success? ==> c.offset <= r.value.offset < |lines|
    ensures r.Failure? ==> r.error.Panic?
  {
    match kind
    case SliceStatsHeader => Success(SliceStatsRead(c, lines))
    case StatementStatsHeader => Success(StatementStatsRead(c, lines))
    case SettingsLine => SettingsRead(c, lines[c.offset])
    case OptimizerLine => OptimizerRead(c, lines[c.offset])
    case RuntimeLine => RuntimeRead(c, lines[c.offset])
  }

  /** parseline on the line at `c.offset`. */
  function ParseLine(c: Collected, lines: seq<string>): (r: Result<Collected, Failure>)
    requires c.offset < |lines|
    ensures r.Success? ==> c.offset <= r.value.offset < |lines|
    ensures r.Success? && c.finished ==> r.value.finished
    ensures r.Failure? ==> r.error.FirstNodeIndent? || r.error.NodeIndent? || r.error.Panic?
    ensures r.Failure? && !r.error.Panic? <==>
      Classify(lines[c.offset], c.finished) == NodeHeader
      && (if |c.nodes| == 0 then GetIndent(lines[c.offset]) > 1 else GetIndent(lines[c.offset]) < 2)
  {
    ReadLine(c, lines, Classify(lines[c.offset], c.finished))
  }

  /** What parseline does with the line at `c.offset` once it knows what kind of line it is. */
  function ReadLine(c: Collected, lines: seq<string>, kind: LineKind): (r: Result<Collected, Failure>)
    requires c.offset < |lines|
    ensures r.Success? ==> c.offset <= r.value.offset < |lines|
    ensures r.Success? && c.finished && kind != NodeDetail ==> r.value.finished
    ensures r.Success? && !(kind.NodeHeader? || kind.NodeDetail? || kind.SubPlanHeader?) ==>
      r.value.nodes == c.nodes && r.value.plans == c.plans
    ensures r.Failure? ==> r.error.FirstNodeIndent? || r.error.NodeIndent? || r.error.Panic?
    ensures r.Failure? && !r.error.Panic? <==>
      kind == NodeHeader && (if |c.nodes| == 0 then GetIndent(lines[c.offset]) > 1 else GetIndent(lines[c.offset]) < 2)
  {
    var line := lines[c.offset];
    match kind
    case Noise => Success(c)
    case Unused => Success(c)
    case NodeHeader => ReadNodeHeader(c, line)
    case SubPlanHeader => Success(c.(plans := c.plans + [NewPlan(line, c.offset)]))
    case NodeDetail => if |c.nodes| == 0 then Success(c) else Success(c.(nodes := WithDetail(c.nodes, line)))
    case _ => ReadSection(c, lines, kind)
  }

  /** parseLines' loop from line `c.offset` on: the first error stops it. */
  function ParseFrom(c: Collected, lines: seq<string>): Result<Collected, Failure>
    decreases |lines| - c.offset, 1
  {
    if c.offset >= |lines| then Success(c) else ParseNext(ParseLine(c, lines), lines, c.offset)
  }

  /** parseLines' loop after reading line `from` with outcome `r`: an error stops it, else on to the next line. */
  function ParseNext(r: Result<Collected, Failure>, lines: seq<string>, from: nat): Result<Collected, Failure>
    requires r.Success? ==> from <= r.value.offset < |lines|
    decreases |lines| - from, 0
  {
    if r.Failure? then r else ParseFrom(r.value.(offset := r.value.offset + 1), lines)
  }

  lemma ParseFromUnfold(c: Collected, lines: seq<string>)
    requires c.offset < |lines|
    ensures ParseFrom(c, lines) == ParseNext(ParseLine(c, lines), lines, c.offset)
  {
  }

  lemma ParseNextSuccess(d: Collected, lines: seq<string>, from: nat)
    requires from <= d.offset < |lines|
    ensures ParseNext(Success(d), lines, from) == ParseFrom(d.(offset := d.offset + 1), lines)
  {
  }

  /** One turn of the loop: a line read successfully hands over to the next line. */
  lemma ParseFromStep(c: Collected, d: Collected, lines: seq<string>)
    requires c.offset < |lines| && ParseLine(c, lines) == Success(d)
    ensures ParseFrom(c, lines) == ParseFrom(d.(offset := d.offset + 1), lines)
  {
    ParseFromUnfold(c, lines);
    ParseNextSuccess(d, lines, c.offset);
  }

  /** Every line with pgAdmin's quotes removed. */
  function Unquoted(lines: seq<string>): (r: seq<string>)
    ensures |r| == |lines| && forall k | 0 <= k < |lines| :: r[k] == CheckQuote(lines[k])
  {
    seq(|lines|, k requires 0 <= k < |lines| => CheckQuote(lines[k]))
  }

  /** parseLines: quotes removed from every line, then every line read from the first. */
  function ParseAll(lines: seq<string>): Result<Collected, Failure> {
    ParseFrom(Start, Unquoted(lines))
  }

  // ---------------------------------------------------------------------------------------
  // What the collector guarantees
  // ---------------------------------------------------------------------------------------

  function NodeTextPositions(ns: seq<NodeText>): (r: seq<Pos>)
    ensures |r| == |ns| && forall k | 0 <= k < |ns| :: r[k] == Pos(ns[k].indent, ns[k].offset)
  {
    seq(|ns|, k requires 0 <= k < |ns| => Pos(ns[k].indent, ns[k].offset))
  }

  function PlanTextPositions(ps: seq<PlanText>): (r: seq<Pos>)
    ensures |r| == |ps| && forall k | 0 <= k < |ps| :: r[k] == Pos(ps[k].indent, ps[k].offset)
  {
    seq(|ps|, k requires 0 <= k < |ps| => Pos(ps[k].indent, ps[k].offset))
  }

  /**
   * What holds of the collected lists before line `c.offset` is read: every node starts
   * with a line NODE matches; nodes and plans are in line order and above the current
   * line; the first node is at column 0 or 1 and the others deeper; and the top plan "Plan"
   * sits on the first node's line.
   */
  predicate Sound(c: Collected) {
    && (forall k | 0 <= k < |c.nodes| :: |c.nodes[k].extraInfo| > 0 && NodeShape(c.nodes[k].extraInfo[0]).Some?)
    && (forall i, j | 0 <= i < j < |c.nodes| :: c.nodes[i].offset < c.nodes[j].offset)
    && (forall k | 0 <= k < |c.nodes| :: c.nodes[k].offset < c.offset)
    && (forall i, j | 0 <= i < j < |c.plans| :: c.plans[i].offset < c.plans[j].offset)
    && (forall k | 0 <= k < |c.plans| :: c.plans[k].offset < c.offset)
    && (|c.nodes| > 0 ==> 0 <= c.nodes[0].indent <= 1 && PlanText("Plan", 0, c.nodes[0].offset) in c.plans)
    && (forall k | 1 <= k < |c.nodes| :: c.nodes[k].indent >= 2)
  }

  /** createPlan("Plan"): the top plan, at column 0. */
  lemma TopPlanText(offset: nat)
    ensures NewPlan("Plan", offset) == PlanText("Plan", 0, offset)
  {
    assert "Plan"[0] != ' ';
    assert TrimLeftFunc("Plan", c => c in {' '}) == "Plan";
    assert TrimRightFunc("Plan", c => c in {' '}) == "Plan";
  }

  /** The first node, with the top plan on its line, keeps the collector sound. */
  lemma FirstNodeSound(c: Collected, n: NodeText)
    requires Sound(c) && |c.nodes| == 0
    requires |n.extraInfo| > 0 && NodeShape(n.extraInfo[0]).Some? && n.offset == c.offset && 0 <= n.indent <= 1
    ensures Sound(c.(nodes := [n], plans := c.plans + [PlanText("Plan", 0, c.offset)], offset := c.offset + 1))
  {
    var ps := c.plans + [PlanText("Plan", 0, c.offset)];
    assert ps[|c.plans|] == PlanText("Plan", 0, c.offset);
  }

  /** A later node, deeper than column 1, keeps the collector sound. */
  lemma LaterNodeSound(c: Collected, n: NodeText)
    requires Sound(c) && |c.nodes| > 0
    requires |n.extraInfo| > 0 && NodeShape(n.extraInfo[0]).Some? && n.offset == c.offset && n.indent >= 2
    ensures Sound(c.(nodes := c.nodes + [n], offset := c.offset + 1))
  {
    var ns := c.nodes + [n];
    assert forall k | 0 <= k < |c.nodes| :: ns[k] == c.nodes[k];
  }

  /** A new node line keeps the collector sound. */
  lemma NodeHeaderSound(c: Collected, line: string)
    requires Sound(c) && NodeShape(line).Some? && ReadNodeHeader(c, line).Success?
    ensures var r := ReadNodeHeader(c, line).value; Sound(r.(offset := r.offset + 1))
  {
    var n := NewNode(line, c.offset);
    if |c.nodes| == 0 {
      TopPlanText(c.offset);
      assert ReadNodeHeader(c, line).value == c.(nodes := [n], plans := c.plans + [PlanText("Plan", 0, c.offset)]);
      FirstNodeSound(c, n);
    } else {
      assert ReadNodeHeader(c, line).value == c.(nodes := c.nodes + [n]);
      LaterNodeSound(c, n);
    }
  }

  /** A line added below the last node keeps the collector sound. */
  lemma DetailSound(c: Collected, line: string)
    requires Sound(c) && |c.nodes| > 0
    ensures Sound(c.(nodes := WithDetail(c.nodes, line), offset := c.offset + 1))
  {
    var ns := WithDetail(c.nodes, line);
    assert forall k | 0 <= k < |ns| :: ns[k].offset == c.nodes[k].offset && ns[k].indent == c.nodes[k].indent;
    assert forall k | 0 <= k < |ns| :: ns[k].extraInfo[0] == c.nodes[k].extraInfo[0];
  }

  /** A new SubPlan line keeps the collector sound. */
  lemma SubPlanSound(c: Collected, p: PlanText)
    requires Sound(c) && p.offset == c.offset
    ensures Sound(c.(plans := c.plans + [p], offset := c.offset + 1))
  {
  }

  /** A step that adds no node and no plan keeps the collector sound, wherever it goes on. */
  lemma ListsKeptSound(c: Collected, r: Collected)
    requires Sound(c) && r.nodes == c.nodes && r.plans == c.plans && r.offset >= c.offset
    ensures Sound(r.(offset := r.offset + 1))
  {
  }

  /** Only a line NODE matches is read as a node header. */
  lemma NodeHeaderMatches(line: string, finished: bool)
    requires Classify(line, finished) == NodeHeader
    ensures NodeShape(line).Some?
  {
  }

  /** A node header read from the current line keeps the collector sound. */
  lemma NodeLineSound(c: Collected, lines: seq<string>, kind: LineKind)
    requires kind == NodeHeader && Sound(c) && c.offset < |lines| && ReadLine(c, lines, kind).Success?
    requires NodeShape(lines[c.offset]).Some?
    ensures var r := ReadLine(c, lines, kind).value; Sound(r.(offset := r.offset + 1))
  {
    assert ReadLine(c, lines, kind) == ReadNodeHeader(c, lines[c.offset]);
    NodeHeaderSound(c, lines[c.offset]);
  }

  /** A SubPlan line read from the current line keeps the collector sound. */
  lemma SubPlanLineSound(c: Collected, lines: seq<string>, kind: LineKind)
    requires kind == SubPlanHeader && Sound(c) && c.offset < |lines|
    ensures var r := ReadLine(c, lines, kind).value; Sound(r.(offset := r.offset + 1))
  {
    var p := NewPlan(lines[c.offset], c.offset);
    var r := ReadLine(c, lines, kind).value;
    assert r == c.(plans := c.plans + [p]);
    SubPlanSound(c, p);
    assert r.(offset := r.offset + 1) == c.(plans := c.plans + [p], offset := c.offset + 1);
  }

  /** A detail line read from the current line keeps the collector sound. */
  lemma DetailLineSound(c: Collected, lines: seq<string>, kind: LineKind)
    requires kind == NodeDetail && Sound(c) && c.offset < |lines|
    ensures var r := ReadLine(c, lines, kind).value; Sound(r.(offset := r.offset + 1))
  {
    if |c.nodes| > 0 {
      assert ReadLine(c, lines, kind) == Success(c.(nodes := WithDetail(c.nodes, lines[c.offset])));
      DetailSound(c, lines[c.offset]);
    } else {
      assert ReadLine(c, lines, kind) == Success(c);
      ListsKeptSound(c, c);
    }
  }

  /** A line that leaves both lists alone keeps the collector sound. */
  lemma OtherLineSound(c: Collected, lines: seq<string>, kind: LineKind)
    requires Sound(c) && c.offset < |lines| && ReadLine(c, lines, kind).Success?
    requires kind != NodeHeader && kind != NodeDetail && kind != SubPlanHeader
    ensures var r := ReadLine(c, lines, kind).value; Sound(r.(offset := r.offset + 1))
  {
    ListsKeptSound(c, ReadLine(c, lines, kind).value);
  }

  /** One line, of a kind already known, keeps the collector sound. */
  lemma ReadLineSound(c: Collected, lines: seq<string>, kind: LineKind)
    requires Sound(c) && c.offset < |lines| && ReadLine(c, lines, kind).Success?
    requires kind == NodeHeader ==> NodeShape(lines[c.offset]).Some?
    ensures var r := ReadLine(c, lines, kind).value; Sound(r.(offset := r.offset + 1))
  {
    if kind == NodeHeader {
      NodeLineSound(c, lines, kind);
    } else if kind == NodeDetail {
      DetailLineSound(c, lines, kind);
    } else if kind == SubPlanHeader {
      SubPlanLineSound(c, lines, kind);
    } else {
      OtherLineSound(c, lines, kind);
    }
  }

  /** One line keeps the collector sound. */
  lemma SoundStep(c: Collected, lines: seq<string>)
    requires Sound(c) && c.offset < |lines| && ParseLine(c, lines).Success?
    ensures var r := ParseLine(c, lines).value; Sound(r.(offset := r.offset + 1))
  {
    var kind := Classify(lines[c.offset], c.finished);
    assert ParseLine(c, lines) == ReadLine(c, lines, kind);
    if kind == NodeHeader {
      NodeHeaderMatches(lines[c.offset], c.finished);
    }
    ReadLineSound(c, lines, kind);
  }

  /** The rest of the text keeps the collector sound. */
  lemma {:induction false} ParseFromSound(c: Collected, lines: seq<string>)
    requires Sound(c)
    ensures ParseFrom(c, lines).Success? ==> Sound(ParseFrom(c, lines).value)
    decreases |lines| - c.offset
  {
    if c.offset < |lines| {
      var r := ParseLine(c, lines);
      if r.Success? {
        ParseFromStep(c, r.value, lines);
        SoundStep(c, lines);
        ParseFromSound(r.value.(offset := r.value.offset + 1), lines);
      } else {
        ParseFromUnfold(c, lines);
      }
    }
  }

  /**
   * What the collector hands on: every node line matches NODE (so reading it never fails),
   * and when no SubPlan line comes before the first node, the node and plan lines form a
   * text the tree builder places completely.
   */
  lemma ParsedTextWellFormed(lines: seq<string>)
    requires ParseAll(lines).Success?
    ensures var c := ParseAll(lines).value;
      && (forall k | 0 <= k < |c.nodes| :: |c.nodes[k].extraInfo| > 0 && ParseHeader(c.nodes[k].extraInfo[0]).Some?)
      && (|c.nodes| > 0 && |c.plans| > 0 && c.plans[0].offset >= c.nodes[0].offset ==>
            WellFormed(NodeTextPositions(c.nodes), PlanTextPositions(c.plans)))
  {
    ParseFromSound(Start, Unquoted(lines));
    var c := ParseAll(lines).value;
    if |c.nodes| > 0 && c.plans[0].offset >= c.nodes[0].offset {
      var t :| 0 <= t < |c.plans| && c.plans[t] == PlanText("Plan", 0, c.nodes[0].offset);
      assert t == 0;
    }
  }
}
