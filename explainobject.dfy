/**
 * The `Explain` object of plan/explain.go: its methods collect the lines of the report into
 * node and plan objects, link them into a tree, read every node and run the checks. Each
 * collecting method is proved to do to the object what `ParseLine`/`ParseFrom` say the
 * collector does to a `Collected` record; `State()` reads that record off the object.
 */
module ExplainObject {
  import opened Wrappers
  import opened GoStrings
  import opened Pattern
  import opened PlanLines
  import opened PlanNode
  import opened NodeLines
  import opened PlanTree
  import opened Checker
  import opened PlanExplain

  /** A node object seen as collected text. */
  function NodeTexts(nodes: seq<Node>): (r: seq<NodeText>)
    reads nodes`ExtraInfo
    ensures |r| == |nodes|
    ensures forall k | 0 <= k < |nodes| :: r[k] == NodeText(nodes[k].Indent, nodes[k].Offset, nodes[k].ExtraInfo)
  {
    if |nodes| == 0 then []
    else
      var n := nodes[|nodes| - 1];
      NodeTexts(nodes[..|nodes| - 1]) + [NodeText(n.Indent, n.Offset, n.ExtraInfo)]
  }

  /** A plan object seen as collected text. */
  function PlanTexts(plans: seq<Plan>): (r: seq<PlanText>)
    ensures |r| == |plans|
    ensures forall k | 0 <= k < |plans| :: r[k] == PlanText(plans[k].Name, plans[k].Indent, plans[k].Offset)
  {
    seq(|plans|, k requires 0 <= k < |plans| => PlanText(plans[k].Name, plans[k].Indent, plans[k].Offset))
  }

  /**
   * The loop of parseSliceStats and parseStatementStats: the lines below line `offset` go
   * through `step` while they are deeper than column 1; at the first shallower line the
   * collector is put back one line, so that line is read next.
   */
  method ReadBlock<S>(lines: seq<string>, offset: nat, start: S, step: (S, string) -> S) returns (s: S, next: nat)
    requires offset < |lines|
    ensures s == FoldLines(start, lines[offset + 1..BlockEnd(lines, offset + 1)], step)
    ensures next == Resume(offset, BlockEnd(lines, offset + 1), |lines|)
  {
    ghost var from := offset + 1;
    ghost var e := BlockEnd(lines, from);
    s, next := start, offset;
    var i := offset + 1;
    while i < |lines|
      invariant from <= i <= e
      invariant s == FoldLines(start, lines[from..i], step)
      invariant next == offset
    {
      if GetIndent(lines[i]) > 1 {
        assert lines[from..i + 1][..i - from] == lines[from..i];
        s := step(s, lines[i]);
      } else {
        next := i - 1;
        break;
      }
      i := i + 1;
    }
  }

  /** A node not yet linked into the tree and not yet checked, as createNode leaves it. */
  predicate Unlinked(n: Node)
    reads n`SubNodes, n`SubPlans, n`Warnings
  {
    n.SubNodes == [] && n.SubPlans == [] && n.Warnings == []
  }

  /**
   * InitPlan's fix for a root without a cost of its own (an INSERT): when the root's total
   * cost is 0 it takes its first child's startup and total cost, end time, time offset and
   * analyze flag, and keeps everything else.
   */
  function InsertRoot(root: NodeValues, child: NodeValues): (r: NodeValues)
    ensures root.header.totalCost != 0.0 ==> r == root
    ensures r.header == root.header.(startupCost := r.header.startupCost, totalCost := r.header.totalCost)
    ensures r.annotation == root.annotation.(timing := r.annotation.timing)
    ensures r.annotation.timing ==
      root.annotation.timing.(isAnalyzed := r.annotation.timing.isAnalyzed, msEnd := r.annotation.timing.msEnd,
                              msOffset := r.annotation.timing.msOffset)
    ensures root.header.totalCost == 0.0 ==>
      && r.header.startupCost == child.header.startupCost && r.header.totalCost == child.header.totalCost
      && r.annotation.timing.msEnd == child.annotation.timing.msEnd
      && r.annotation.timing.msOffset == child.annotation.timing.msOffset
      && r.annotation.timing.isAnalyzed == child.annotation.timing.isAnalyzed
  {
    if root.header.totalCost == 0.0 then
      var t := root.annotation.timing.(isAnalyzed := child.annotation.timing.isAnalyzed,
                                       msEnd := child.annotation.timing.msEnd,
                                       msOffset := child.annotation.timing.msOffset);
      NodeValues(root.header.(startupCost := child.header.startupCost, totalCost := child.header.totalCost),
                 root.annotation.(timing := t))
    else root
  }

  /** parseNodeExtraInfo on one node, stated as what `ReadValues` reads from its lines (`want`). */
  method ReadNodeValues(n: Node, ghost want: Option<NodeValues>) returns (ok: bool)
    requires |n.ExtraInfo| > 0 && want == ReadValues(n.ExtraInfo)
    modifies n`Operator, n`Slice, n`Object, n`ObjectType, n`StartupCost, n`TotalCost, n`Rows, n`Width
    modifies n`IsAnalyzed, n`ActualRows, n`MaxRows, n`MsFirst, n`MsEnd, n`MsOffset, n`AvgRows
    modifies n`Workers, n`Scans, n`MaxSeg, n`AvgMem, n`MaxMem, n`SpillFile, n`SpillReuse
    modifies n`PartSelected, n`PartSelectedTotal, n`PartScanned, n`PartScannedTotal, n`Filter
    ensures ok <==> want.Some?
    ensures ok ==> ValuesOf(n) == want.value
  {
    ok := ParseNodeExtraInfo(n);
  }

  /**
   * `ReadNodeValues` on the i-th of `nodes`, whose lines are `infos[i]`. The link to `ReadValues`
   * stays under a quantifier here, so that a caller looping over the nodes never unfolds it.
   */
  method ReadNodeAt(n: Node, nodes: seq<Node>, i: nat, ghost infos: seq<seq<string>>, ghost want: seq<Option<NodeValues>>)
    returns (ok: bool)
    requires i < |nodes| == |infos| == |want| && n == nodes[i]
    requires forall k | 0 <= k < |nodes| :: nodes[k].ExtraInfo == infos[k] && |infos[k]| > 0
    requires forall k {:trigger ReadValues(infos[k])} | 0 <= k < |infos| :: want[k] == ReadValues(infos[k])
    modifies n`Operator, n`Slice, n`Object, n`ObjectType, n`StartupCost
    modifies n`TotalCost, n`Rows, n`Width, n`IsAnalyzed, n`ActualRows
    modifies n`MaxRows, n`MsFirst, n`MsEnd, n`MsOffset, n`AvgRows
    modifies n`Workers, n`Scans, n`MaxSeg, n`AvgMem, n`MaxMem
    modifies n`SpillFile, n`SpillReuse, n`PartSelected, n`PartSelectedTotal
    modifies n`PartScanned, n`PartScannedTotal, n`Filter
    ensures ok <==> want[i].Some?
    ensures ok ==> ValuesOf(n) == want[i].value
  {
    ok := ReadNodeValues(n, want[i]);
  }

  /** What `ReadValues` makes of each node's lines, node by node. */
  function ReadAll(infos: seq<seq<string>>): (r: seq<Option<NodeValues>>)
    requires forall k | 0 <= k < |infos| :: |infos[k]| > 0
    ensures |r| == |infos|
    ensures forall k {:trigger ReadValues(infos[k])} | 0 <= k < |infos| :: r[k] == ReadValues(infos[k])
  {
    seq(|infos|, k requires 0 <= k < |infos| => ReadValues(infos[k]))
  }

  /** Every collected node starts with a line that NODE matches. */
  predicate LinesMatch(texts: seq<NodeText>) {
    forall k {:trigger NodeShape(texts[k].extraInfo[0])} | 0 <= k < |texts| ::
      |texts[k].extraInfo| > 0 && NodeShape(texts[k].extraInfo[0]).Some?
  }

  /** A node's lines read back exactly when its first line is one NODE matches. */
  lemma ReadAllAt(infos: seq<seq<string>>, k: nat)
    requires forall j | 0 <= j < |infos| :: |infos[j]| > 0
    requires k < |infos|
    ensures ReadAll(infos)[k].Some? <==> NodeShape(infos[k][0]).Some?
  {
    assert ReadAll(infos)[k] == ReadValues(infos[k]);
  }

  /** Every node's lines read back exactly when every node starts with a line NODE matches. */
  lemma ReadAllMatches(texts: seq<NodeText>, infos: seq<seq<string>>, want: seq<Option<NodeValues>>)
    requires |infos| == |texts| && forall k | 0 <= k < |texts| :: infos[k] == texts[k].extraInfo && |infos[k]| > 0
    requires want == ReadAll(infos)
    ensures (forall k | 0 <= k < |want| :: want[k].Some?) <==> LinesMatch(texts)
  {
    if forall k | 0 <= k < |want| :: want[k].Some? {
      forall k | 0 <= k < |texts|
        ensures |texts[k].extraInfo| > 0 && NodeShape(texts[k].extraInfo[0]).Some?
      {
        ReadAllAt(infos, k);
      }
    } else {
      var k :| 0 <= k < |want| && want[k].None?;
      ReadAllAt(infos, k);
    }
  }

  /** What InitPlan's second loop works from for one node: its own time and cost, and the outcome of the node checks. */
  datatype NodeRollUp = NodeRollUp(msNode: real, nodeCost: real, checks: RuleOutcome)

  function RollUpOf(n: Node): NodeRollUp
    reads n`MsEnd, n`SubNodes, n.SubNodes`MsEnd
    reads n`TotalCost, n`SubPlans, n.SubNodes`TotalCost, n.SubPlans`TopNode, (set p | p in n.SubPlans :: p.TopNode)`TotalCost
    reads n`Operator, n`Rows, n`ObjectType, n`Object, n`IsAnalyzed, n`ActualRows, n`AvgRows
    reads n`SpillFile, n`Scans, n`PartSelected, n`PartSelectedTotal, n`PartScanned
    reads n`PartScannedTotal, n`MaxRows, n`Workers, n`MaxSeg, n`Filter
  {
    NodeRollUp(SelfMs(n), SelfCost(n), NodeChecks(FactsOf(n)))
  }

  /**
   * One turn of InitPlan's second loop: the node's own time and cost, their shares of the
   * totals, then the node checks; `want` is what `RollUpOf` says of the node beforehand.
   */
  method RollUpNode(n: Node, totalCost: real, totalMs: real, ghost want: NodeRollUp) returns (panicked: bool)
    requires want == RollUpOf(n)
    modifies n`MsNode, n`NodeCost, n`PrctCost, n`MsPrct, n`Warnings
    ensures n.MsNode == want.msNode && n.NodeCost == want.nodeCost
    ensures n.PrctCost == Percentage(n.NodeCost, totalCost) && n.MsPrct == Percentage(n.MsNode, totalMs)
    ensures n.Warnings == old(n.Warnings) + want.checks.warnings && panicked == want.checks.panicked
  {
    ghost var facts := FactsOf(n);
    n.CalculateSubNodeDiff();
    n.CalculatePercentage(totalCost, totalMs);
    assert FactsOf(n) == facts;
    panicked := CheckNode(n);
  }

  /** Node `n` has been through the second loop of InitPlan as `want` says, its warnings having been `warnings0`. */
  ghost predicate RolledUp(n: Node, want: NodeRollUp, totalCost: real, totalMs: real, warnings0: seq<Warning>)
    reads n`MsNode, n`NodeCost, n`PrctCost, n`MsPrct, n`Warnings
  {
    && n.MsNode == want.msNode && n.NodeCost == want.nodeCost
    && n.PrctCost == Percentage(want.nodeCost, totalCost) && n.MsPrct == Percentage(want.msNode, totalMs)
    && n.Warnings == warnings0 + want.checks.warnings
  }

  /** The INSERT fix of InitPlan on the node list: a root without a total cost takes its first child's figures. */
  method FixRoot(nodes: seq<Node>)
    requires |nodes| > 0 && DistinctNodes(nodes)
    modifies nodes`StartupCost, nodes`TotalCost, nodes`MsEnd, nodes`MsOffset, nodes`IsAnalyzed
    ensures forall k | 1 <= k < |nodes| :: ValuesOf(nodes[k]) == old(ValuesOf(nodes[k]))
    ensures ValuesOf(nodes[0]) ==
      if |nodes| >= 2 then InsertRoot(old(ValuesOf(nodes[0])), old(ValuesOf(nodes[1]))) else old(ValuesOf(nodes[0]))
  {
    if nodes[0].TotalCost == 0.0 && |nodes| >= 2 {
      TakeFigures(nodes[0], nodes[1]);
    }
  }

  /** The assignments of the INSERT fix: `root` takes `child`'s costs, end time, offset and analyze flag. */
  method TakeFigures(root: Node, child: Node)
    requires root != child && root.TotalCost == 0.0
    modifies root`StartupCost, root`TotalCost, root`MsEnd, root`MsOffset, root`IsAnalyzed
    ensures ValuesOf(root) == InsertRoot(old(ValuesOf(root)), ValuesOf(child))
  {
    root.TotalCost := child.TotalCost;
    root.StartupCost := child.StartupCost;
    root.MsEnd := child.MsEnd;
    root.MsOffset := child.MsOffset;
    root.IsAnalyzed := child.IsAnalyzed;
  }

  /**
   * `RollUpNode` on the i-th of `nodes`; what `RollUpOf` says of the nodes after it still holds
   * afterwards, as the turn writes none of what it reads.
   */
  method RollUpAt(n: Node, nodes: seq<Node>, i: nat, totalCost: real, totalMs: real, ghost want: seq<NodeRollUp>)
    returns (panicked: bool)
    requires DistinctNodes(nodes) && i < |nodes| == |want| && n == nodes[i]
    requires forall k {:trigger RollUpOf(nodes[k])} | i <= k < |nodes| :: want[k] == RollUpOf(nodes[k])
    modifies n`MsNode, n`NodeCost, n`PrctCost, n`MsPrct, n`Warnings
    ensures panicked == want[i].checks.panicked
    ensures RolledUp(n, want[i], totalCost, totalMs, old(n.Warnings))
    ensures forall k {:trigger RollUpOf(nodes[k])} | i < k < |nodes| :: want[k] == RollUpOf(nodes[k])
  {
    assert want[i] == RollUpOf(nodes[i]);
    panicked := RollUpNode(n, totalCost, totalMs, want[i]);
    forall k | i < k < |nodes|
      ensures want[k] == RollUpOf(nodes[k])
    {
      assert old(RollUpOf(nodes[k])) == RollUpOf(nodes[k]);
    }
  }

  /**
   * The second loop of InitPlan on the node list, against the root's totals `totalCost` and
   * `totalMs`; `want` is what `RollUpOf` says of every node beforehand.
   */
  method RollUpNodes(nodes: seq<Node>, totalCost: real, totalMs: real, ghost want: seq<NodeRollUp>) returns (panicked: bool)
    requires DistinctNodes(nodes)
    requires |want| == |nodes| && forall k {:trigger RollUpOf(nodes[k])} | 0 <= k < |nodes| :: want[k] == RollUpOf(nodes[k])
    modifies nodes`MsNode, nodes`NodeCost, nodes`PrctCost, nodes`MsPrct, nodes`Warnings
    ensures !panicked <==> forall k | 0 <= k < |nodes| :: !want[k].checks.panicked
    ensures !panicked ==> forall k | 0 <= k < |nodes| ::
      && nodes[k].MsNode == want[k].msNode && nodes[k].NodeCost == want[k].nodeCost
      && nodes[k].PrctCost == Percentage(want[k].nodeCost, totalCost)
      && nodes[k].MsPrct == Percentage(want[k].msNode, totalMs)
      && nodes[k].Warnings == old(nodes[k].Warnings) + want[k].checks.warnings
  {
    for i := 0 to |nodes|
      invariant forall k | 0 <= k < i :: !want[k].checks.panicked
      invariant forall k | 0 <= k < i :: RolledUp(nodes[k], want[k], totalCost, totalMs, old(nodes[k].Warnings))
      invariant forall k | i <= k < |nodes| :: nodes[k].Warnings == old(nodes[k].Warnings)
      invariant forall k {:trigger RollUpOf(nodes[k])} | i <= k < |nodes| :: want[k] == RollUpOf(nodes[k])
    {
      panicked := RollUpAt(nodes[i], nodes, i, totalCost, totalMs, want);
      if panicked {
        return;
      }
    }
    return false;
  }

  class Explain {
    var Nodes: seq<Node>
    var Plans: seq<Plan>
    var SliceStats: seq<string>
    var MemoryUsed: int
    var MemoryWanted: int
    var Settings: seq<Setting>
    var Optimizer: string
    var OptimizerStatus: string
    var Runtime: real

    /** Warnings about the report as a whole. */
    var Warnings: seq<Warning>

    var lines: seq<string>
    var lineOffset: nat
    var planFinished: bool

    /** A new Explain: Go's zero value. */
    constructor ()
      ensures State() == Start && lines == [] && Warnings == []
    {
      Nodes, Plans, SliceStats := [], [], [];
      MemoryUsed, MemoryWanted := 0, 0;
      Settings, Optimizer, OptimizerStatus, Runtime := [], "", "", 0.0;
      Warnings := [];
      lines, lineOffset, planFinished := [], 0, false;
    }

    /** What the collector has gathered, read off the object. */
    function State(): Collected
      reads this, Nodes`ExtraInfo
    {
      Collected(NodeTexts(Nodes), PlanTexts(Plans), SliceStats, MemoryUsed, MemoryWanted,
                Settings, Optimizer, OptimizerStatus, Runtime, lineOffset, planFinished)
    }

    /** No node and no plan is listed twice. */
    predicate Distinct()
      reads this
    {
      DistinctNodes(Nodes) && DistinctPlans(Plans)
    }

    /** createNode. */
    method CreateNode(line: string) returns (node: Node)
      ensures fresh(node)
      ensures NodeText(node.Indent, node.Offset, node.ExtraInfo) == NewNode(line, lineOffset)
      ensures Unlinked(node)
    {
      node := new Node(GetIndent(line), lineOffset, [line]);
    }

    /** createPlan. */
    method CreatePlan(line: string) returns (plan: Plan)
      ensures fresh(plan)
      ensures PlanText(plan.Name, plan.Indent, plan.Offset) == NewPlan(line, lineOffset)
    {
      plan := new Plan(Trim(line, {' '}), GetIndent(line), lineOffset);
    }

    /** The quote loop of parseLines: every line loses pgAdmin's quotes. */
    method UnquoteLines()
      modifies this`lines, this`lineOffset
      ensures lines == Unquoted(old(lines)) && lineOffset == |lines|
    {
      lineOffset := 0;
      while lineOffset < |lines|
        invariant 0 <= lineOffset <= |lines| == |old(lines)|
        invariant forall k | 0 <= k < lineOffset :: lines[k] == CheckQuote(old(lines)[k])
        invariant forall k | lineOffset <= k < |lines| :: lines[k] == old(lines)[k]
      {
        lines := lines[lineOffset := CheckQuote(lines[lineOffset])];
        lineOffset := lineOffset + 1;
      }
    }

    /** parseSliceStats: the deeper lines below are kept, trimmed, up to the first shallow one. */
    method ParseSliceStats()
      requires lineOffset < |lines|
      modifies this`planFinished, this`SliceStats, this`lineOffset
      ensures State() == SliceStatsRead(old(State()), lines)
    {
      planFinished := true;
      var stats, next := ReadBlock(lines, lineOffset, SliceStats, AppendTrimmed);
      AppendTrimmedFold(SliceStats, lines[lineOffset + 1..BlockEnd(lines, lineOffset + 1)]);
      SliceStats, lineOffset := stats, next;
    }

    /** parseStatementStats: both figures start at -1 and the deeper lines below may set them. */
    method ParseStatementStats()
      requires lineOffset < |lines|
      modifies this`planFinished, this`MemoryUsed, this`MemoryWanted, this`lineOffset
      ensures planFinished
      ensures (MemoryUsed, MemoryWanted) == FoldLines((-1, -1), lines[old(lineOffset) + 1..BlockEnd(lines, old(lineOffset) + 1)], MemoryStep)
      ensures lineOffset == Resume(old(lineOffset), BlockEnd(lines, old(lineOffset) + 1), |lines|)
    {
      planFinished := true;
      MemoryUsed, MemoryWanted := -1, -1;
      var m, next := ReadBlock(lines, lineOffset, (-1, -1), MemoryStep);
      MemoryUsed, MemoryWanted, lineOffset := m.0, m.1, next;
    }

    /** parseSettings: one setting per "; " piece, split at "="; a piece without "=" panics. */
    method ParseSettingsLine(line: string) returns (err: Option<Failure>)
      modifies this`planFinished, this`Settings, this`Optimizer
      ensures planFinished
      ensures var r := ParseSettings(line);
        && (err.None? <==> r.Success?) && (r.Failure? ==> err == Some(r.error))
        && (r.Success? ==> Settings == old(Settings) + r.value && Optimizer == OptimizerAfter(old(Optimizer), r.value))
    {
      planFinished := true;
      var t := TrimSpace(line);
      if |t| < 11 {
        return Some(Panic(SliceBounds));
      }
      err := AddSettings(Split(t[11..], "; "));
    }

    /** The loop of parseSettings over the pieces of the line. */
    method AddSettings(pieces: seq<string>) returns (err: Option<Failure>)
      modifies this`Settings, this`Optimizer
      ensures var r := SettingsOf(pieces);
        && (err.None? <==> r.Some?) && (r.None? ==> err == Some(Panic(IndexOutOfRange)))
        && (r.Some? ==> Settings == old(Settings) + r.value && Optimizer == OptimizerAfter(old(Optimizer), r.value))
    {
      var i := 0;
      ghost var done: seq<Setting> := [];
      while i < |pieces|
        invariant 0 <= i <= |pieces|
        invariant SettingsOf(pieces[..i]) == Some(done)
        invariant Settings == old(Settings) + done
        invariant Optimizer == OptimizerAfter(old(Optimizer), done)
      {
        var ok;
        ok, done := AddSetting(pieces, i, old(Settings), old(Optimizer), done);
        if !ok {
          return Some(Panic(IndexOutOfRange));
        }
        i := i + 1;
      }
      assert pieces[..i] == pieces;
      err := None;
    }

    /** One pass of that loop: the piece is split at "=" and kept as a setting, or the loop panics. */
    method AddSetting(pieces: seq<string>, i: nat, ghost base: seq<Setting>, ghost start: string, ghost done: seq<Setting>)
      returns (ok: bool, ghost next: seq<Setting>)
      requires i < |pieces| && SettingsOf(pieces[..i]) == Some(done)
      requires Settings == base + done && Optimizer == OptimizerAfter(start, done)
      modifies this`Settings, this`Optimizer
      ensures !ok ==> SettingsOf(pieces).None?
      ensures ok ==> SettingsOf(pieces[..i + 1]) == Some(next) && Settings == base + next && Optimizer == OptimizerAfter(start, next)
    {
      var temp := Split(pieces[i], "=");
      if |temp| < 2 {
        SplitWithoutSeparator(pieces[i]);
        MissingSeparatorFails(pieces, i);
        return false, done;
      }
      var setting := Setting(temp[0], temp[1]);
      SettingsStep(pieces, i, done);
      OptimizerStep(start, done, setting);
      Settings := Settings + [setting];
      if temp[0] == "optimizer" {
        Optimizer := temp[1];
      }
      return true, done + [setting];
    }

    /** parseOptimizer: the status is the text after the first ": " past the label. */
    method ParseOptimizerLine(line: string) returns (err: Option<Failure>)
      modifies this`planFinished, this`OptimizerStatus
      ensures planFinished
      ensures var r := ParseOptimizer(line);
        && (err.None? <==> r.Success?) && (r.Failure? ==> err == Some(r.error))
        && (r.Success? ==> OptimizerStatus == r.value)
    {
      planFinished := true;
      var t := TrimSpace(line);
      if |t| < 11 {
        return Some(Panic(SliceBounds));
      }
      var temp := Split(t[11..], ": ");
      if |temp| < 2 {
        return Some(Panic(IndexOutOfRange));
      }
      OptimizerStatus := temp[1];
      err := None;
    }

    /** parseRuntime: the third word, when it reads as a number, is the runtime. */
    method ParseRuntimeLine(line: string) returns (err: Option<Failure>)
      modifies this`planFinished, this`Runtime
      ensures planFinished
      ensures var r := ParseRuntime(old(Runtime), line);
        && (err.None? <==> r.Success?) && (r.Failure? ==> err == Some(r.error))
        && (r.Success? ==> Runtime == r.value)
    {
      planFinished := true;
      var temp := Split(TrimSpace(line), " ");
      if |temp| < 3 {
        return Some(Panic(IndexOutOfRange));
      }
      var f := ParseFloat(temp[2]);
      if f.ok {
        Runtime := f.value;
      }
      err := None;
    }

    /**
     * The node-header branch of parseline: the indentation contract, then the top plan for
     * the first node, then the node itself.
     */
    method ReadNodeLine(line: string) returns (err: Option<Failure>)
      requires Distinct()
      modifies this`Nodes, this`Plans
      ensures Distinct()
      ensures forall n | n in Nodes :: n in old(Nodes) || (fresh(n) && Unlinked(n))
      ensures forall p | p in Plans :: p in old(Plans) || fresh(p)
      ensures err == IndentError(|old(Nodes)|, line)
      ensures err.None? ==> NodeTexts(Nodes) == old(NodeTexts(Nodes)) + [NewNode(line, lineOffset)]
      ensures err.None? ==>
        PlanTexts(Plans) == old(PlanTexts(Plans)) + if |old(Nodes)| == 0 then [NewPlan("Plan", lineOffset)] else []
    {
      var node := CreateNode(line);
      err := CheckIndent(node, line);
      if err.Some? {
        return;
      }
      if |Nodes| == 0 {
        AddTopPlan();
      }
      AddNode(node, line);
    }

    /** The indentation contract on a new node: column 0 or 1 for the first, 2 or more after. */
    method CheckIndent(node: Node, line: string) returns (err: Option<Failure>)
      requires node.Indent == GetIndent(line)
      ensures err == IndentError(|Nodes|, line)
    {
      if |Nodes| == 0 && node.Indent > 1 {
        return Some(FirstNodeIndent(TrimRight(line, {' '})));
      }
      if |Nodes| > 0 && node.Indent < 2 {
        return Some(NodeIndent(TrimRight(line, {' '})));
      }
      return None;
    }

    /** The implicit top plan "Plan", on the current line. */
    method AddTopPlan()
      requires Distinct()
      modifies this`Plans
      ensures Distinct()
      ensures PlanTexts(Plans) == old(PlanTexts(Plans)) + [NewPlan("Plan", lineOffset)]
      ensures forall p | p in Plans :: p in old(Plans) || fresh(p)
    {
      var plan := CreatePlan("Plan");
      AddPlan(plan);
    }

    /** A new plan at the end of `Plans`. */
    method AddPlan(plan: Plan)
      requires Distinct() && plan !in Plans
      modifies this`Plans
      ensures Distinct()
      ensures PlanTexts(Plans) == old(PlanTexts(Plans)) + [PlanText(plan.Name, plan.Indent, plan.Offset)]
      ensures Plans == old(Plans) + [plan]
    {
      assert PlanTexts(Plans + [plan]) == PlanTexts(Plans) + [PlanText(plan.Name, plan.Indent, plan.Offset)];
      Plans := Plans + [plan];
    }

    /** A new node at the end of `Nodes`. */
    method AddNode(node: Node, line: string)
      requires Distinct() && node !in Nodes
      requires NodeText(node.Indent, node.Offset, node.ExtraInfo) == NewNode(line, lineOffset)
      modifies this`Nodes
      ensures Distinct()
      ensures NodeTexts(Nodes) == old(NodeTexts(Nodes)) + [NewNode(line, lineOffset)]
      ensures Nodes == old(Nodes) + [node]
    {
      assert NodeTexts(Nodes + [node]) == NodeTexts(Nodes) + [NewNode(line, lineOffset)];
      Nodes := Nodes + [node];
    }

    /** The last node gets one more line. */
    method AddDetail(line: string)
      requires Distinct() && |Nodes| > 0
      modifies Nodes`ExtraInfo
      ensures NodeTexts(Nodes) == WithDetail(old(NodeTexts(Nodes)), line)
      ensures forall k | 0 <= k < |Nodes| - 1 :: Nodes[k].ExtraInfo == old(Nodes[k].ExtraInfo)
    {
      var last := Nodes[|Nodes| - 1];
      last.ExtraInfo := last.ExtraInfo + [line];
      assert forall k | 0 <= k < |Nodes| - 1 :: Nodes[k] != last;
    }

    /** The statement statistics block, as the collector sees it. */
    method ReadStatementStats()
      requires lineOffset < |lines|
      modifies this`planFinished, this`MemoryUsed, this`MemoryWanted, this`lineOffset
      ensures State() == StatementStatsRead(old(State()), lines)
    {
      ghost var c := State();
      ParseStatementStats();
      assert State() == c.(finished := true, memoryUsed := MemoryUsed, memoryWanted := MemoryWanted, offset := lineOffset);
    }

    /** The settings line, as the collector sees it. */
    method ReadSettings() returns (err: Option<Failure>)
      requires lineOffset < |lines|
      modifies this`planFinished, this`Settings, this`Optimizer
      ensures var r := SettingsRead(old(State()), lines[old(lineOffset)]);
        && (err.None? <==> r.Success?) && (r.Failure? ==> err == Some(r.error)) && (r.Success? ==> State() == r.value)
    {
      ghost var c := State();
      err := ParseSettingsLine(lines[lineOffset]);
      if err.None? {
        assert State() == c.(finished := true, settings := Settings, optimizer := Optimizer);
      }
    }

    /** The optimizer status line, as the collector sees it. */
    method ReadOptimizer() returns (err: Option<Failure>)
      requires lineOffset < |lines|
      modifies this`planFinished, this`OptimizerStatus
      ensures var r := OptimizerRead(old(State()), lines[old(lineOffset)]);
        && (err.None? <==> r.Success?) && (r.Failure? ==> err == Some(r.error)) && (r.Success? ==> State() == r.value)
    {
      ghost var c := State();
      err := ParseOptimizerLine(lines[lineOffset]);
      if err.None? {
        assert State() == c.(finished := true, optimizerStatus := OptimizerStatus);
      }
    }

    /** The runtime line, as the collector sees it. */
    method ReadRuntime() returns (err: Option<Failure>)
      requires lineOffset < |lines|
      modifies this`planFinished, this`Runtime
      ensures var r := RuntimeRead(old(State()), lines[old(lineOffset)]);
        && (err.None? <==> r.Success?) && (r.Failure? ==> err == Some(r.error)) && (r.Success? ==> State() == r.value)
    {
      ghost var c := State();
      err := ParseRuntimeLine(lines[lineOffset]);
      if err.None? {
        assert State() == c.(finished := true, runtime := Runtime);
      }
    }

    /** A node line, as the collector sees it. */
    method ReadNodeHeaderLine() returns (err: Option<Failure>)
      requires lineOffset < |lines| && Distinct()
      modifies this`Nodes, this`Plans
      ensures Distinct()
      ensures forall n | n in Nodes :: n in old(Nodes) || (fresh(n) && Unlinked(n))
      ensures forall p | p in Plans :: p in old(Plans) || fresh(p)
      ensures var r := ReadNodeHeader(old(State()), lines[old(lineOffset)]);
        && (err.None? <==> r.Success?) && (r.Failure? ==> err == Some(r.error)) && (r.Success? ==> State() == r.value)
    {
      ghost var c := State();
      err := ReadNodeLine(lines[lineOffset]);
      if err.None? {
        assert State() == c.(nodes := NodeTexts(Nodes), plans := PlanTexts(Plans));
      }
    }

    /** A SubPlan line, as the collector sees it. */
    method ReadSubPlanLine()
      requires lineOffset < |lines| && Distinct()
      modifies this`Plans
      ensures Distinct()
      ensures State() == old(State()).(plans := old(State()).plans + [NewPlan(lines[lineOffset], lineOffset)])
      ensures forall p | p in Plans :: p in old(Plans) || fresh(p)
    {
      ghost var c := State();
      var plan := CreatePlan(lines[lineOffset]);
      AddPlan(plan);
      assert State() == c.(plans := PlanTexts(Plans));
    }

    /** A line below a node, as the collector sees it. */
    method ReadDetailLine()
      requires lineOffset < |lines| && Distinct()
      modifies Nodes`ExtraInfo
      ensures
        var c := old(State());
        State() == if |c.nodes| == 0 then c else c.(nodes := WithDetail(c.nodes, lines[lineOffset]))
    {
      if |Nodes| > 0 {
        AddDetail(lines[lineOffset]);
      }
    }

    /** What parseline does with the current line, once its kind is known. */
    method ReadKind(kind: LineKind) returns (err: Option<Failure>)
      requires lineOffset < |lines| && Distinct()
      modifies this`Nodes, this`Plans, this`SliceStats, this`MemoryUsed, this`MemoryWanted, this`Settings
      modifies this`Optimizer, this`OptimizerStatus, this`Runtime, this`lineOffset, this`planFinished
      modifies Nodes`ExtraInfo
      ensures Distinct()
      ensures forall n | n in Nodes :: n in old(Nodes) || (fresh(n) && Unlinked(n))
      ensures forall p | p in Plans :: p in old(Plans) || fresh(p)
      ensures var r := PlanExplain.ReadLine(old(State()), lines, kind);
        && (err.None? <==> r.Success?) && (r.Failure? ==> err == Some(r.error)) && (r.Success? ==> State() == r.value)
    {
      if IsSection(kind) {
        err := ReadSectionKind(kind);
      } else {
        err := ReadListKind(kind);
      }
    }

    /** A closing section line. */
    method ReadSectionKind(kind: LineKind) returns (err: Option<Failure>)
      requires lineOffset < |lines| && IsSection(kind)
      modifies this`SliceStats, this`MemoryUsed, this`MemoryWanted, this`Settings
      modifies this`Optimizer, this`OptimizerStatus, this`Runtime, this`lineOffset, this`planFinished
      ensures var r := ReadSection(old(State()), lines, kind);
        && (err.None? <==> r.Success?) && (r.Failure? ==> err == Some(r.error)) && (r.Success? ==> State() == r.value)
    {
      match kind
      case SliceStatsHeader =>
        ParseSliceStats();
        err := None;
      case StatementStatsHeader =>
        ReadStatementStats();
        err := None;
      case SettingsLine =>
        err := ReadSettings();
      case OptimizerLine =>
        err := ReadOptimizer();
      case RuntimeLine =>
        err := ReadRuntime();
    }

    /** A line that is noise, a node or SubPlan line, or a line below a node. */
    method ReadListKind(kind: LineKind) returns (err: Option<Failure>)
      requires lineOffset < |lines| && Distinct() && !IsSection(kind)
      modifies this`Nodes, this`Plans, Nodes`ExtraInfo
      ensures Distinct()
      ensures forall n | n in Nodes :: n in old(Nodes) || (fresh(n) && Unlinked(n))
      ensures forall p | p in Plans :: p in old(Plans) || fresh(p)
      ensures var r := PlanExplain.ReadLine(old(State()), lines, kind);
        && (err.None? <==> r.Success?) && (r.Failure? ==> err == Some(r.error)) && (r.Success? ==> State() == r.value)
    {
      match kind
      case Noise =>
        err := None;
      case Unused =>
        err := None;
      case NodeHeader =>
        err := ReadNodeHeaderLine();
      case SubPlanHeader =>
        ReadSubPlanLine();
        err := None;
      case NodeDetail =>
        ReadDetailLine();
        err := None;
    }

    /** parseline on the current line: its kind, then what that kind of line does. */
    method ParseCurrentLine() returns (err: Option<Failure>)
      requires lineOffset < |lines| && Distinct()
      modifies this`Nodes, this`Plans, this`SliceStats, this`MemoryUsed, this`MemoryWanted, this`Settings
      modifies this`Optimizer, this`OptimizerStatus, this`Runtime, this`lineOffset, this`planFinished
      modifies Nodes`ExtraInfo
      ensures Distinct()
      ensures forall n | n in Nodes :: n in old(Nodes) || (fresh(n) && Unlinked(n))
      ensures forall p | p in Plans :: p in old(Plans) || fresh(p)
      ensures var r := ParseLine(old(State()), lines);
        && (err.None? <==> r.Success?) && (r.Failure? ==> err == Some(r.error)) && (r.Success? ==> State() == r.value)
    {
      var kind := Classify(lines[lineOffset], planFinished);
      err := ReadKind(kind);
    }

    /**
     * parseLines: the quotes are removed from every line, then every line is read in turn
     * until one fails.
     */
    method ParseLines() returns (err: Option<Failure>)
      requires Distinct()
      modifies this, (set n | n in Nodes)`ExtraInfo
      ensures Distinct() && lines == Unquoted(old(lines))
      ensures forall n | n in Nodes :: n in old(Nodes) || (fresh(n) && Unlinked(n))
      ensures forall p | p in Plans :: p in old(Plans) || fresh(p)
      ensures var r := ParseFrom(old(State()).(offset := 0, finished := false), lines);
        && (err.None? <==> r.Success?) && (r.Failure? ==> err == Some(r.error)) && (r.Success? ==> State() == r.value)
    {
      ghost var start := State().(offset := 0, finished := false);
      planFinished := false;
      UnquoteLines();
      lineOffset := 0;
      assert State() == start;
      err := ReadLines();
    }

    /** The main loop of parseLines, from the current line on. */
    method ReadLines() returns (err: Option<Failure>)
      requires Distinct()
      modifies this`Nodes, this`Plans, this`SliceStats, this`MemoryUsed, this`MemoryWanted, this`Settings
      modifies this`Optimizer, this`OptimizerStatus, this`Runtime, this`lineOffset, this`planFinished
      modifies (set n | n in Nodes)`ExtraInfo
      ensures Distinct()
      ensures var r := ParseFrom(old(State()), lines);
        && (err.None? <==> r.Success?) && (r.Failure? ==> err == Some(r.error)) && (r.Success? ==> State() == r.value)
      ensures forall n | n in Nodes :: n in old(Nodes) || (fresh(n) && Unlinked(n))
      ensures forall p | p in Plans :: p in old(Plans) || fresh(p)
    {
      ghost var target := ParseFrom(State(), lines);
      while lineOffset < |lines|
        invariant Distinct()
        invariant forall n | n in Nodes :: n in old(Nodes) || (fresh(n) && Unlinked(n))
        invariant forall p | p in Plans :: p in old(Plans) || fresh(p)
        invariant ParseFrom(State(), lines) == target
        decreases |lines| - lineOffset
      {
        ghost var c := State();
        ghost var d;
        err, d := Advance();
        if err.Some? {
          return;
        }
        ParseFromStep(c, d, lines);
      }
      err := None;
    }

    /** One turn of parseLines' loop: the current line, then on to the next. */
    method Advance() returns (err: Option<Failure>, ghost d: Collected)
      requires lineOffset < |lines| && Distinct()
      modifies this`Nodes, this`Plans, this`SliceStats, this`MemoryUsed, this`MemoryWanted, this`Settings
      modifies this`Optimizer, this`OptimizerStatus, this`Runtime, this`lineOffset, this`planFinished
      modifies Nodes`ExtraInfo
      ensures Distinct()
      ensures forall n | n in Nodes :: n in old(Nodes) || (fresh(n) && Unlinked(n))
      ensures forall p | p in Plans :: p in old(Plans) || fresh(p)
      ensures var r := ParseLine(old(State()), lines);
        && (err.None? <==> r.Success?) && (r.Failure? ==> err == Some(r.error))
        && (r.Success? ==> r.value == d && State() == d.(offset := d.offset + 1))
    {
      err := ParseCurrentLine();
      d := State();
      if err.Some? {
        return;
      }
      lineOffset := lineOffset + 1;
    }

    /**
     * BuildTree: first every SubPlan goes to the SubPlans of its host node, then every node
     * heads the plan on the line above it, or joins the SubNodes of the nearest earlier
     * shallower node, or else heads the main plan. The plan search tries the main plan too,
     * as the code does; every node is linked when no node sits right under the main plan.
     */
    method BuildTree()
      requires Distinct() && (|Nodes| > 0 ==> |Plans| > 0)
      modifies Nodes`SubPlans, Nodes`SubNodes, Plans`TopNode
      ensures SubPlansOf(Nodes) ==
        WithSubPlans(old(SubPlansOf(Nodes)), Plans, Hosts(NodePositions(Nodes), PlanPositions(Plans)), 0)
      ensures SubNodesOf(Nodes) ==
        WithSubNodes(old(SubNodesOf(Nodes)), Nodes, Targets(NodePositions(Nodes), PlanPositions(Plans), FirstPlanSearchedAsWritten), 0)
      ensures TopNodes(Plans) ==
        WithTopNodes(old(TopNodes(Plans)), Nodes, Targets(NodePositions(Nodes), PlanPositions(Plans), FirstPlanSearchedAsWritten), 0)
      ensures WellFormed(NodePositions(Nodes), PlanPositions(Plans)) && TopPlanUnheaded(NodePositions(Nodes), PlanPositions(Plans)) ==>
        TreeLinked(Nodes, Plans)
    {
      BuildLinks(Nodes, Plans, FirstPlanSearchedAsWritten);
    }

    /**
     * The first loop of InitPlan: parseNodeExtraInfo on every node in turn, up to the first
     * failure; `want` is what `ReadValues` makes of each node's lines.
     */
    method ReadNodes(ghost infos: seq<seq<string>>, ghost want: seq<Option<NodeValues>>) returns (err: Option<Failure>)
      requires Distinct() && |Nodes| == |infos| == |want|
      requires forall k | 0 <= k < |Nodes| :: Nodes[k].ExtraInfo == infos[k] && |infos[k]| > 0
      requires forall k {:trigger ReadValues(infos[k])} | 0 <= k < |infos| :: want[k] == ReadValues(infos[k])
      modifies Nodes`Operator, Nodes`Slice, Nodes`Object, Nodes`ObjectType, Nodes`StartupCost, Nodes`TotalCost
      modifies Nodes`Rows, Nodes`Width, Nodes`IsAnalyzed, Nodes`ActualRows, Nodes`MaxRows, Nodes`MsFirst
      modifies Nodes`MsEnd, Nodes`MsOffset, Nodes`AvgRows, Nodes`Workers, Nodes`Scans, Nodes`MaxSeg
      modifies Nodes`AvgMem, Nodes`MaxMem, Nodes`SpillFile, Nodes`SpillReuse, Nodes`PartSelected
      modifies Nodes`PartSelectedTotal, Nodes`PartScanned, Nodes`PartScannedTotal, Nodes`Filter
      ensures err.None? <==> forall k | 0 <= k < |want| :: want[k].Some?
      ensures err.Some? ==> err == Some(UnableToParseNode)
      ensures err.None? ==> forall k | 0 <= k < |Nodes| :: ValuesOf(Nodes[k]) == want[k].value
    {
      var nodes := Nodes;
      for i := 0 to |nodes|
        invariant forall k | 0 <= k < i :: want[k].Some? && ValuesOf(nodes[k]) == want[k].value
      {
        var ok := ReadNodeAt(nodes[i], nodes, i, infos, want);
        if !ok {
          return Some(UnableToParseNode);
        }
      }
      return None;
    }

    /** The INSERT fix of InitPlan: a root without a total cost takes its first child's figures. */
    method FixInsertRoot()
      requires |Nodes| > 0 && Distinct()
      modifies Nodes`StartupCost, Nodes`TotalCost, Nodes`MsEnd, Nodes`MsOffset, Nodes`IsAnalyzed
      ensures forall k | 1 <= k < |Nodes| :: ValuesOf(Nodes[k]) == old(ValuesOf(Nodes[k]))
      ensures ValuesOf(Nodes[0]) ==
        if |Nodes| >= 2 then InsertRoot(old(ValuesOf(Nodes[0])), old(ValuesOf(Nodes[1]))) else old(ValuesOf(Nodes[0]))
    {
      FixRoot(Nodes);
    }

    /**
     * The second loop of InitPlan: every node, in turn, works out its own time and cost and
     * their shares of the root's, then goes through the node checks; a check that divides
     * by zero stops the run.
     */
    method RollUp(ghost want: seq<NodeRollUp>) returns (panicked: bool)
      requires |Nodes| > 0 && Distinct()
      requires |want| == |Nodes| && forall k {:trigger RollUpOf(Nodes[k])} | 0 <= k < |Nodes| :: want[k] == RollUpOf(Nodes[k])
      modifies Nodes`MsNode, Nodes`NodeCost, Nodes`PrctCost, Nodes`MsPrct, Nodes`Warnings
      ensures !panicked <==> forall k | 0 <= k < |Nodes| :: !want[k].checks.panicked
      ensures !panicked ==> forall k | 0 <= k < |Nodes| ::
        && Nodes[k].MsNode == want[k].msNode && Nodes[k].NodeCost == want[k].nodeCost
        && Nodes[k].PrctCost == Percentage(want[k].nodeCost, old(Nodes[0].TotalCost))
        && Nodes[k].MsPrct == Percentage(want[k].msNode, old(Nodes[0].MsEnd))
        && Nodes[k].Warnings == old(Nodes[k].Warnings) + want[k].checks.warnings
    {
      panicked := RollUpNodes(Nodes, Nodes[0].TotalCost, Nodes[0].MsEnd, want);
    }

    /**
     * InitPlan: the text is split into lines and collected; a text without a node is
     * refused; the rest is analysed. A node line that the collector accepted always reads
     * back, so parseNodeExtraInfo's error is never the outcome here.
     */
    method InitPlan(planText: string) returns (err: Option<Failure>)
      requires State() == Start
      modifies this
      ensures var r := ParseAll(Split(planText, "\n"));
        && (r.Failure? ==> err == Some(r.error))
        && (r.Success? && |r.value.nodes| == 0 ==> err == Some(NoNodes))
        && (r.Success? && |r.value.nodes| > 0 ==> err.None? || err == Some(Panic(DivideByZero)))
      ensures err.None? ==> |Nodes| == |ParseAll(Split(planText, "\n")).value.nodes| > 0
    {
      err := CollectText(planText);
      if err.Some? {
        return;
      }
      if |Nodes| == 0 {
        return Some(NoNodes);
      }
      err := AnalyzeSound();
    }

    /** The collecting half of InitPlan: the text split into lines, then parseLines; what it gathers is sound. */
    method CollectText(planText: string) returns (err: Option<Failure>)
      requires State() == Start
      modifies this
      ensures Distinct()
      ensures (forall k | 0 <= k < |Nodes| :: fresh(Nodes[k])) && (forall k | 0 <= k < |Plans| :: fresh(Plans[k]))
      ensures err.None? ==> Sound(State())
      ensures var r := ParseAll(Split(planText, "\n"));
        && (err.None? <==> r.Success?) && (r.Failure? ==> err == Some(r.error))
        && (r.Success? ==> State() == r.value && Sound(State()))
    {
      assert |Nodes| == |State().nodes| == 0 && |Plans| == |State().plans| == 0;
      lines := Split(planText, "\n");
      ghost var text := lines;
      err := ParseLines();
      FreshNodes(Nodes);
      FreshPlans(Plans);
      if err.None? {
        ParseFromSound(Start, Unquoted(text));
      }
    }

    /** Analyze on what a sound collector gathered: every node line reads back, so only a panic can stop it. */
    method AnalyzeSound() returns (err: Option<Failure>)
      requires Distinct() && |Nodes| > 0 && Sound(State())
      modifies this`Warnings, Plans`TopNode, Nodes`SubPlans, Nodes`SubNodes
      modifies Nodes`Operator, Nodes`Slice, Nodes`Object, Nodes`ObjectType, Nodes`StartupCost, Nodes`TotalCost
      modifies Nodes`Rows, Nodes`Width, Nodes`IsAnalyzed, Nodes`ActualRows, Nodes`MaxRows, Nodes`MsFirst
      modifies Nodes`MsEnd, Nodes`MsOffset, Nodes`AvgRows, Nodes`Workers, Nodes`Scans, Nodes`MaxSeg
      modifies Nodes`AvgMem, Nodes`MaxMem, Nodes`SpillFile, Nodes`SpillReuse, Nodes`PartSelected
      modifies Nodes`PartSelectedTotal, Nodes`PartScanned, Nodes`PartScannedTotal, Nodes`Filter
      modifies Nodes`MsNode, Nodes`NodeCost, Nodes`PrctCost, Nodes`MsPrct, Nodes`Warnings
      ensures err.None? || err == Some(Panic(DivideByZero))
    {
      assert |Plans| == |State().plans| > 0;
      err := Analyze(State().nodes);
    }

    /**
     * The analysis half of InitPlan: the tree is built, every node reads its lines, the
     * INSERT fix is applied, the per-node figures and checks run, then the explain checks.
     */
    method Analyze(ghost texts: seq<NodeText>) returns (err: Option<Failure>)
      requires Distinct() && |Nodes| > 0 && |Plans| > 0
      requires texts == NodeTexts(Nodes) && forall k | 0 <= k < |texts| :: |texts[k].extraInfo| > 0
      modifies this`Warnings, Plans`TopNode, Nodes`SubPlans, Nodes`SubNodes
      modifies Nodes`Operator, Nodes`Slice, Nodes`Object, Nodes`ObjectType, Nodes`StartupCost, Nodes`TotalCost
      modifies Nodes`Rows, Nodes`Width, Nodes`IsAnalyzed, Nodes`ActualRows, Nodes`MaxRows, Nodes`MsFirst
      modifies Nodes`MsEnd, Nodes`MsOffset, Nodes`AvgRows, Nodes`Workers, Nodes`Scans, Nodes`MaxSeg
      modifies Nodes`AvgMem, Nodes`MaxMem, Nodes`SpillFile, Nodes`SpillReuse, Nodes`PartSelected
      modifies Nodes`PartSelectedTotal, Nodes`PartScanned, Nodes`PartScannedTotal, Nodes`Filter
      modifies Nodes`MsNode, Nodes`NodeCost, Nodes`PrctCost, Nodes`MsPrct, Nodes`Warnings
      ensures err.None? || err == Some(UnableToParseNode) || err == Some(Panic(DivideByZero))
      ensures err == Some(UnableToParseNode) <==> !LinesMatch(texts)
      ensures err.None? ==>
        Warnings == old(Warnings) + MotionRule(Nodes) + SliceRule(Nodes) + FallbackRule(OptimizerStatus, Settings) + GucRule(Settings)
    {
      LinkTree();
      err := ReadAllNodes(texts);
      if err.Some? {
        return;
      }
      err := Conclude();
    }

    /** The rest of InitPlan once every node has read its lines: the INSERT fix, the roll-up, the explain checks. */
    method Conclude() returns (err: Option<Failure>)
      requires Distinct() && |Nodes| > 0
      modifies this`Warnings, Nodes`StartupCost, Nodes`TotalCost, Nodes`MsEnd, Nodes`MsOffset, Nodes`IsAnalyzed
      modifies Nodes`MsNode, Nodes`NodeCost, Nodes`PrctCost, Nodes`MsPrct, Nodes`Warnings
      ensures err.None? || err == Some(Panic(DivideByZero))
      ensures err.None? ==>
        Warnings == old(Warnings) + MotionRule(Nodes) + SliceRule(Nodes) + FallbackRule(OptimizerStatus, Settings) + GucRule(Settings)
    {
      FixInsertRoot();
      var panicked := RollUpAll();
      if panicked {
        return Some(Panic(DivideByZero));
      }
      RunExplainChecks();
      return None;
    }

    /** BuildTree as InitPlan calls it; what follows in InitPlan reads nothing it links. */
    method LinkTree()
      requires Distinct() && (|Nodes| > 0 ==> |Plans| > 0)
      modifies Nodes`SubPlans, Nodes`SubNodes, Plans`TopNode
    {
      BuildTree();
    }

    /** ReadNodes, on what `ReadValues` makes of the nodes' own lines. */
    method ReadAllNodes(ghost texts: seq<NodeText>) returns (err: Option<Failure>)
      requires Distinct() && texts == NodeTexts(Nodes) && forall k | 0 <= k < |texts| :: |texts[k].extraInfo| > 0
      modifies Nodes`Operator, Nodes`Slice, Nodes`Object, Nodes`ObjectType, Nodes`StartupCost, Nodes`TotalCost
      modifies Nodes`Rows, Nodes`Width, Nodes`IsAnalyzed, Nodes`ActualRows, Nodes`MaxRows, Nodes`MsFirst
      modifies Nodes`MsEnd, Nodes`MsOffset, Nodes`AvgRows, Nodes`Workers, Nodes`Scans, Nodes`MaxSeg
      modifies Nodes`AvgMem, Nodes`MaxMem, Nodes`SpillFile, Nodes`SpillReuse, Nodes`PartSelected
      modifies Nodes`PartSelectedTotal, Nodes`PartScanned, Nodes`PartScannedTotal, Nodes`Filter
      ensures err.None? || err == Some(UnableToParseNode)
      ensures err.Some? <==> !LinesMatch(texts)
    {
      ghost var infos := seq(|texts|, k requires 0 <= k < |texts| => texts[k].extraInfo);
      ghost var want := ReadAll(infos);
      err := ReadNodes(infos, want);
      ReadAllMatches(texts, infos, want);
    }

    /** RollUp, on what `RollUpOf` makes of every node as it stands. */
    method RollUpAll() returns (panicked: bool)
      requires |Nodes| > 0 && Distinct()
      modifies Nodes`MsNode, Nodes`NodeCost, Nodes`PrctCost, Nodes`MsPrct, Nodes`Warnings
    {
      var nodes := Nodes;
      ghost var rollUps := seq(|nodes|, k requires 0 <= k < |nodes| reads * => RollUpOf(nodes[k]));
      panicked := RollUp(rollUps);
    }

    /** The explain checks, in catalog order: four append to the report's warnings, the last to nodes'. */
    method RunExplainChecks()
      modifies this`Warnings, Nodes`Warnings
      ensures Warnings ==
        old(Warnings) + MotionRule(Nodes) + SliceRule(Nodes) + FallbackRule(OptimizerStatus, Settings) + GucRule(Settings)
      ensures forall m | m in Nodes ::
        m.Warnings == old(m.Warnings) + Repeat(ChildPartitionWarning, ChildPartitionHits(Nodes, Optimizer, m))
    {
      var motion := CheckMotionCount(Nodes);
      var slices := CheckSliceCount(Nodes);
      var fallback := CheckPlannerFallback(OptimizerStatus, Settings);
      var gucs := CheckGucs(Settings);
      Warnings := Warnings + motion + slices + fallback + gucs;
      CheckChildPartitions(Nodes, Optimizer);
      assert motion == MotionRule(Nodes);
      assert slices == SliceRule(Nodes);
    }
  }


  /** A sequence of nodes all allocated since the method began, read element by element. */
  twostate lemma FreshNodes(new nodes: seq<Node>)
    requires forall n | n in nodes :: fresh(n)
    ensures forall k | 0 <= k < |nodes| :: fresh(nodes[k])
  {
    forall k | 0 <= k < |nodes| ensures fresh(nodes[k]) {
      assert nodes[k] in nodes;
    }
  }

  /** The same for plans. */
  twostate lemma FreshPlans(new plans: seq<Plan>)
    requires forall p | p in plans :: fresh(p)
    ensures forall k | 0 <= k < |plans| :: fresh(plans[k])
  {
    forall k | 0 <= k < |plans| ensures fresh(plans[k]) {
      assert plans[k] in plans;
    }
  }
}
