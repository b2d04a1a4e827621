/**
 * The rule catalogs of plan/checker.go: seven checks run on every node (NODECHECKS) and five
 * run on the whole explain output (EXPLAINCHECKS). A rule's condition is a function of the
 * fields it reads; its only effect is to append warnings, to the node or to the explain
 * output. The rules' names, descriptions, dates and scopes are display-only and left out.
 */
module Checker {
  import opened GoStrings
  import opened Pattern
  import opened PlanNode

  const ReviewQuery := "Review query"
  const EliminatePartitions := "Check if partitions can be eliminated"

  /** What a rule appends, and whether it stopped with a Go run-time panic (integer division by zero). */
  datatype RuleOutcome = RuleOutcome(warnings: seq<Warning>, panicked: bool)

  // ---------------------------------------------------------------------------------------
  // Node checks
  // ---------------------------------------------------------------------------------------

  /** The fields of a node that the node checks read; `subNodes` is how many child nodes it has. */
  datatype NodeFacts = NodeFacts(
    operator: string, rows: int, objectType: string, objectName: string,
    isAnalyzed: bool, actualRows: real, avgRows: real, maxRows: real, workers: int, maxSeg: string, scans: int,
    spillFile: int, subNodes: nat,
    partSelected: int, partSelectedTotal: int, partScanned: int, partScannedTotal: int, filter: string)

  function FactsOf(n: Node): NodeFacts
    reads n`Operator, n`Rows, n`ObjectType, n`Object, n`IsAnalyzed, n`ActualRows, n`AvgRows
    reads n`SpillFile, n`Scans, n`SubNodes, n`PartSelected, n`PartSelectedTotal, n`PartScanned
    reads n`PartScannedTotal, n`MaxRows, n`Workers, n`MaxSeg, n`Filter
  {
    NodeFacts(n.Operator, n.Rows, n.ObjectType, n.Object, n.IsAnalyzed, n.ActualRows, n.AvgRows, n.MaxRows,
              n.Workers, n.MaxSeg, n.Scans, n.SpillFile, |n.SubNodes|,
              n.PartSelected, n.PartSelectedTotal, n.PartScanned, n.PartScannedTotal, n.Filter)
  }

  /** The maintenance command a stale estimate calls for, by the kind of object scanned. */
  function ScanAction(objectType: string): (a: string)
    ensures objectType == "TABLE" ==> a == "ANALYZE on table"
    ensures objectType == "INDEX" ==> a == "REINDEX on index"
    ensures objectType !in {"TABLE", "INDEX"} ==> a == ""
  {
    if objectType == "TABLE" then "ANALYZE on table"
    else if objectType == "INDEX" then "REINDEX on index"
    else ""
  }

  /**
   * checkNodeEstimatedRows: a scan estimated at exactly one row. Without EXPLAIN ANALYZE
   * figures it always warns; with them it warns only when more rows actually came out.
   */
  function EstimatedRowsRule(n: NodeFacts): (ws: seq<Warning>)
    ensures |ws| <= 1
    ensures |ws| == 1 <==>
      IsScanOperator(n.operator) && n.rows == 1 && (!n.isAnalyzed || n.actualRows > 1.0 || n.avgRows > 1.0)
    ensures |ws| == 1 && !n.isAnalyzed ==>
      ws[0] == Warning("Estimated rows is 1", "May need to run " + ScanAction(n.objectType) + " \"" + n.objectName + "\"")
    ensures |ws| == 1 && n.isAnalyzed ==>
      ws[0] == Warning("Actual rows is higher than estimated rows",
                       "Need to run " + ScanAction(n.objectType) + " \"" + n.objectName + "\"")
  {
    if !IsScanOperator(n.operator) || n.rows != 1 then []
    else
      var target := ScanAction(n.objectType) + " \"" + n.objectName + "\"";
      if !n.isAnalyzed then [Warning("Estimated rows is 1", "May need to run " + target)]
      else if n.actualRows > 1.0 || n.avgRows > 1.0 then
        [Warning("Actual rows is higher than estimated rows", "Need to run " + target)]
      else []
  }

  /** checkNodeNestedLoop: every Nested Loop is flagged. */
  function NestedLoopRule(n: NodeFacts): (ws: seq<Warning>)
    ensures ws == [] || ws == [Warning("Nested Loop", ReviewQuery)]
    ensures ws != [] <==> Contains(n.operator, "Nested Loop")
  {
    if Contains(n.operator, "Nested Loop") then [Warning("Nested Loop", ReviewQuery)] else []
  }

  /** checkNodeSpilling: some segment spilled to disk. */
  function SpillRule(n: NodeFacts): (ws: seq<Warning>)
    ensures |ws| <= 1
    ensures ws != [] <==> n.spillFile >= 1
    ensures ws != [] ==> ws[0].cause == "Total " + FormatInt(n.spillFile) + " spilling segments found"
  {
    if n.spillFile >= 1 then [Warning("Total " + FormatInt(n.spillFile) + " spilling segments found", ReviewQuery)]
    else []
  }

  /** checkNodeScans: the node was executed more than once. */
  function ScansRule(n: NodeFacts): (ws: seq<Warning>)
    ensures |ws| <= 1
    ensures ws != [] <==> n.scans > 1
    ensures ws != [] ==> ws[0].cause == "This node is executed " + FormatInt(n.scans) + " times"
  {
    if n.scans > 1 then [Warning("This node is executed " + FormatInt(n.scans) + " times", ReviewQuery)] else []
  }

  function DetectedScans(k: int): Warning {
    Warning("Detected " + FormatInt(k) + " partition scans", EliminatePartitions)
  }

  /**
   * The Partition Selector / Dynamic Table Scan part of checkNodePartitionScans for `k` of
   * `total` partitions (`what` is "selected" or "scanned"): 100 or more warns; none warns;
   * otherwise the int64 share `k*100/total` (wrapping multiplication, truncating division)
   * warns from 25 up, and a zero total is Go's integer-division panic.
   */
  function PartitionShare(k: int, total: int, what: string): (r: RuleOutcome)
    requires k > -1
    ensures r.panicked <==> k != 0 && total == 0
    ensures |r.warnings| <= 2
    ensures k >= 100 ==> |r.warnings| >= 1 && r.warnings[0] == DetectedScans(k)
    ensures k == 0 ==> r.warnings == [Warning("Zero partitions " + what, ReviewQuery)]
  {
    var detected := if k >= 100 then [DetectedScans(k)] else [];
    if k == 0 then RuleOutcome(detected + [Warning("Zero partitions " + what, ReviewQuery)], false)
    else if total == 0 then RuleOutcome(detected, true)
    else
      var share := Share(k, total);
      if share >= 25 then
        RuleOutcome(detected + [Warning(FormatInt(share) + "% (" + FormatInt(k) + " out of " + FormatInt(total)
                                        + ") partitions " + what, EliminatePartitions)], false)
      else RuleOutcome(detected, false)
  }

  /** `k * 100 / total` in int64 arithmetic. */
  function Share(k: int, total: int): int
    requires total != 0
  {
    Wrap64(TruncDiv(Wrap64(k * 100), total))
  }

  /** Without overflow, the share reaches 25 exactly when `k` is at least a quarter of `total`. */
  lemma ShareQuarter(k: int, total: int)
    requires 0 < k && 0 < total && k * 100 <= MaxInt64
    ensures Share(k, total) >= 25 <==> 4 * k >= total
  {
    var x := k * 100;
    assert Wrap64(x) == x;
    var q := TruncDiv(x, total);
    assert 0 <= x - total * q < total;
    QuotientBounds(x, total, q);
    assert Wrap64(q) == q;
  }

  lemma QuotientBounds(x: int, total: int, q: int)
    requires 0 < total && 0 <= x && 0 <= x - total * q < total
    ensures 0 <= q <= x
    ensures q >= 25 <==> x >= 25 * total
  {
    if q >= 25 {
      assert total * q >= total * 25;
    } else {
      assert total * (q + 1) <= total * 25;
    }
  }

  /**
   * Where `k*100` does not overflow, the share warning appears exactly when k is at least a
   * quarter of the total; so 100 or more partitions out of at most four times as many give
   * both warnings.
   */
  lemma PartitionShareQuarter(k: int, total: int, what: string)
    requires 0 < k && 0 < total && k * 100 <= MaxInt64
    ensures |PartitionShare(k, total, what).warnings| == (if k >= 100 then 1 else 0) + (if 4 * k >= total then 1 else 0)
  {
    ShareQuarter(k, total);
  }

  /**
   * checkNodePartitionScans: an Append over 100 or more children, then the Partition
   * Selector count, then the Dynamic Table Scan count; a panic in the second stops the rule.
   */
  function PartitionRule(n: NodeFacts): (r: RuleOutcome)
    ensures r.panicked <==>
      (Contains(n.operator, "Partition Selector") && n.partSelected > 0 && n.partSelectedTotal == 0)
      || (Contains(n.operator, "Dynamic Table Scan") && n.partScanned > 0 && n.partScannedTotal == 0)
    ensures Contains(n.operator, "Append") && n.subNodes >= 100 ==>
      |r.warnings| > 0 && r.warnings[0] == DetectedScans(n.subNodes)
  {
    var appended := if Contains(n.operator, "Append") && n.subNodes >= 100 then [DetectedScans(n.subNodes)] else [];
    var selected :=
      if Contains(n.operator, "Partition Selector") && n.partSelected > -1
      then PartitionShare(n.partSelected, n.partSelectedTotal, "selected")
      else RuleOutcome([], false);
    if selected.panicked then RuleOutcome(appended + selected.warnings, true)
    else
      var scanned :=
        if Contains(n.operator, "Dynamic Table Scan") && n.partScanned > -1
        then PartitionShare(n.partScanned, n.partScannedTotal, "scanned")
        else RuleOutcome([], false);
      RuleOutcome(appended + selected.warnings + scanned.warnings, scanned.panicked)
  }

  /**
   * checkNodeDataSkew: from 10000 rows on, a segment holding more than half of what the
   * average would give all workers (with more than two workers), or, without an average, a
   * known busiest segment.
   */
  function DataSkewRule(n: NodeFacts): (ws: seq<Warning>)
    ensures ws == [] || ws == [Warning("Data skew on segment " + n.maxSeg, ReviewQuery)]
    ensures ws != [] <==>
      && (n.actualRows >= 10000.0 || n.avgRows >= 10000.0)
      && (if n.avgRows > 0.0 then n.maxRows > n.avgRows * (n.workers as real) / 2.0 && n.workers > 2
          else n.actualRows > 0.0 && n.maxSeg != "-")
  {
    if !(n.actualRows >= 10000.0 || n.avgRows >= 10000.0) then []
    else if n.avgRows > 0.0 then
      if n.maxRows > n.avgRows * (n.workers as real) / 2.0 && n.workers > 2
      then [Warning("Data skew on segment " + n.maxSeg, ReviewQuery)] else []
    else if n.actualRows > 0.0 && n.maxSeg != "-" then [Warning("Data skew on segment " + n.maxSeg, ReviewQuery)]
    else []
  }

  /** checkNodeFilterWithFunction: the filter applies a function to something. */
  function FilterRule(n: NodeFacts): (ws: seq<Warning>)
    ensures ws == [] || ws == [Warning("Filter using function", "Check if function can be avoided")]
    ensures ws != [] <==> FilterCallsFunction(n.filter)
  {
    if FilterCallsFunction(n.filter) then [Warning("Filter using function", "Check if function can be avoided")] else []
  }

  /** A Nested Loop is flagged whatever else the node shows: its rule runs before the one that can panic. */
  lemma NestedLoopAlwaysFlagged(n: NodeFacts)
    requires Contains(n.operator, "Nested Loop")
    ensures Warning("Nested Loop", ReviewQuery) in NodeChecks(n).warnings
  {
    NodeChecksInOrder(n);
    var e := EstimatedRowsRule(n);
    var before := e + NestedLoopRule(n) + SpillRule(n) + ScansRule(n);
    assert before[|e|] == Warning("Nested Loop", ReviewQuery);
    var p := PartitionRule(n);
    if p.panicked {
      assert NodeChecks(n).warnings == before + p.warnings;
      assert (before + p.warnings)[|e|] == Warning("Nested Loop", ReviewQuery);
    } else {
      var all := before + p.warnings + DataSkewRule(n) + FilterRule(n);
      assert NodeChecks(n).warnings == all;
      assert all[|e|] == Warning("Nested Loop", ReviewQuery);
    }
  }

  /**
   * With no partition or skew figures and an operator none of the rules looks for, the
   * node checks add nothing.
   */
  lemma QuietNode(n: NodeFacts)
    requires !IsScanOperator(n.operator) && !Contains(n.operator, "Nested Loop")
    requires !Contains(n.operator, "Append") && !Contains(n.operator, "Partition Selector")
    requires !Contains(n.operator, "Dynamic Table Scan")
    requires n.spillFile < 1 && n.scans <= 1 && n.actualRows < 10000.0 && n.avgRows < 10000.0
    requires !FilterCallsFunction(n.filter)
    ensures NodeChecks(n) == RuleOutcome([], false)
  {
    NodeChecksInOrder(n);
    assert NestedLoopRule(n) == [] && SpillRule(n) == [] && ScansRule(n) == [];
    assert DataSkewRule(n) == [] && FilterRule(n) == [];
  }

  /** The entries of NODECHECKS. */
  datatype NodeRule = EstimatedRows | NestedLoop | Spilling | Scans | PartitionScans | DataSkew | FilterWithFunction

  /** NODECHECKS, in catalog order. */
  const NodeCatalog := [EstimatedRows, NestedLoop, Spilling, Scans, PartitionScans, DataSkew, FilterWithFunction]

  /** What one catalog entry does to a node. */
  function RuleOf(rule: NodeRule, n: NodeFacts): RuleOutcome
  {
    match rule
    case EstimatedRows => RuleOutcome(EstimatedRowsRule(n), false)
    case NestedLoop => RuleOutcome(NestedLoopRule(n), false)
    case Spilling => RuleOutcome(SpillRule(n), false)
    case Scans => RuleOutcome(ScansRule(n), false)
    case PartitionScans => PartitionRule(n)
    case DataSkew => RuleOutcome(DataSkewRule(n), false)
    case FilterWithFunction => RuleOutcome(FilterRule(n), false)
  }

  /** All seven node checks in catalog order; a panic in the partition check ends the run. */
  function NodeChecks(n: NodeFacts): RuleOutcome
  {
    Combine(Outcomes(NodeCatalog, n))
  }

  /** What each of `rules` does to the node, in order. */
  function Outcomes(rules: seq<NodeRule>, n: NodeFacts): (r: seq<RuleOutcome>)
    ensures |r| == |rules|
  {
    if |rules| == 0 then [] else [RuleOf(rules[0], n)] + Outcomes(rules[1..], n)
  }

  lemma {:induction false} OutcomesAt(rules: seq<NodeRule>, n: NodeFacts)
    ensures forall j :: 0 <= j < |rules| ==> Outcomes(rules, n)[j] == RuleOf(rules[j], n)
  {
    if |rules| > 0 {
      OutcomesAt(rules[1..], n);
    }
  }

  /** Running rules with these outcomes one after the other: warnings accumulate until a panic. */
  function Combine(outs: seq<RuleOutcome>): RuleOutcome {
    if |outs| == 0 then RuleOutcome([], false)
    else
      var before := Combine(outs[..|outs| - 1]);
      if before.panicked then before
      else RuleOutcome(before.warnings + outs[|outs| - 1].warnings, outs[|outs| - 1].panicked)
  }

  /** One more rule after a run that has not panicked adds its warnings and decides the panic. */
  lemma CombineStep(outs: seq<RuleOutcome>, i: nat)
    requires i < |outs| && !Combine(outs[..i]).panicked
    ensures Combine(outs[..i + 1]) == RuleOutcome(Combine(outs[..i]).warnings + outs[i].warnings, outs[i].panicked)
  {
    assert outs[..i + 1][..i] == outs[..i];
  }

  /** Once a prefix of the run has panicked, the rest of the rules change nothing. */
  lemma {:induction false} CombinePanicked(outs: seq<RuleOutcome>, k: nat)
    requires k <= |outs| && Combine(outs[..k]).panicked
    ensures Combine(outs) == Combine(outs[..k])
    decreases |outs|
  {
    if k < |outs| {
      var init := outs[..|outs| - 1];
      assert init[..k] == outs[..k];
      CombinePanicked(init, k);
    } else {
      assert outs[..k] == outs;
    }
  }

  /** The seven outcomes of the node catalog, combined. */
  lemma CombineCatalog(e: RuleOutcome, l: RuleOutcome, s: RuleOutcome, c: RuleOutcome,
                       p: RuleOutcome, k: RuleOutcome, f: RuleOutcome)
    requires !e.panicked && !l.panicked && !s.panicked && !c.panicked && !k.panicked && !f.panicked
    ensures Combine([e, l, s, c, p, k, f]) ==
      var before := e.warnings + l.warnings + s.warnings + c.warnings;
      if p.panicked then RuleOutcome(before + p.warnings, true)
      else RuleOutcome(before + p.warnings + k.warnings + f.warnings, false)
  {
    var outs := [e, l, s, c, p, k, f];
    assert outs[..1][..0] == [];
    assert [] + e.warnings == e.warnings;
    assert Combine(outs[..1]) == RuleOutcome(e.warnings, false);
    assert outs[..2][..1] == outs[..1];
    assert Combine(outs[..2]) == RuleOutcome(e.warnings + l.warnings, false);
    assert outs[..3][..2] == outs[..2];
    assert Combine(outs[..3]) == RuleOutcome(e.warnings + l.warnings + s.warnings, false);
    assert outs[..4][..3] == outs[..3];
    var before := e.warnings + l.warnings + s.warnings + c.warnings;
    assert Combine(outs[..4]) == RuleOutcome(before, false);
    assert outs[..5][..4] == outs[..4];
    assert Combine(outs[..5]) == RuleOutcome(before + p.warnings, p.panicked);
    assert outs[..6][..5] == outs[..5];
    assert outs[..7][..6] == outs[..6];
    assert outs[..7] == outs;
    if !p.panicked {
      assert Combine(outs[..6]) == RuleOutcome(before + p.warnings + k.warnings, false);
    }
  }

  /** What the catalog's seven entries do to a node, in catalog order. */
  lemma CatalogOutcomes(n: NodeFacts)
    ensures Outcomes(NodeCatalog, n) ==
      [RuleOf(EstimatedRows, n), RuleOf(NestedLoop, n), RuleOf(Spilling, n), RuleOf(Scans, n),
       RuleOf(PartitionScans, n), RuleOf(DataSkew, n), RuleOf(FilterWithFunction, n)]
  {
    OutcomesAt(NodeCatalog, n);
    var outs := Outcomes(NodeCatalog, n);
    assert outs[0] == RuleOf(EstimatedRows, n);
    assert outs[1] == RuleOf(NestedLoop, n);
    assert outs[2] == RuleOf(Spilling, n);
    assert outs[3] == RuleOf(Scans, n);
    assert outs[4] == RuleOf(PartitionScans, n);
    assert outs[5] == RuleOf(DataSkew, n);
    assert outs[6] == RuleOf(FilterWithFunction, n);
  }

  /** NODECHECKS entry by entry is the seven node checks in order. */
  lemma NodeChecksInOrder(n: NodeFacts)
    ensures NodeChecks(n) ==
      var before := EstimatedRowsRule(n) + NestedLoopRule(n) + SpillRule(n) + ScansRule(n);
      var partitions := PartitionRule(n);
      if partitions.panicked then RuleOutcome(before + partitions.warnings, true)
      else RuleOutcome(before + partitions.warnings + DataSkewRule(n) + FilterRule(n), false)
  {
    CatalogOutcomes(n);
    var e := RuleOf(EstimatedRows, n);
    var l := RuleOf(NestedLoop, n);
    var s := RuleOf(Spilling, n);
    var c := RuleOf(Scans, n);
    var p := RuleOf(PartitionScans, n);
    var k := RuleOf(DataSkew, n);
    var f := RuleOf(FilterWithFunction, n);
    assert e == RuleOutcome(EstimatedRowsRule(n), false);
    assert l == RuleOutcome(NestedLoopRule(n), false);
    assert s == RuleOutcome(SpillRule(n), false);
    assert c == RuleOutcome(ScansRule(n), false);
    assert p == PartitionRule(n);
    assert k == RuleOutcome(DataSkewRule(n), false);
    assert f == RuleOutcome(FilterRule(n), false);
    assert NodeChecks(n) == Combine([e, l, s, c, p, k, f]);
    CombineCatalog(e, l, s, c, p, k, f);
  }

  /**
   * Runs the node catalog on `n`, entry by entry (a panic ends the run): the node's
   * warnings grow by what the seven checks report and nothing else changes.
   */
  method CheckNode(n: Node) returns (panicked: bool)
    modifies n`Warnings
    ensures n.Warnings == old(n.Warnings) + NodeChecks(old(FactsOf(n))).warnings
    ensures panicked == NodeChecks(old(FactsOf(n))).panicked
  {
    var outcomes := Outcomes(NodeCatalog, FactsOf(n));
    ghost var total := NodeChecks(FactsOf(n));
    assert total == Combine(outcomes);
    for i := 0 to |outcomes|
      invariant n.Warnings == old(n.Warnings) + Combine(outcomes[..i]).warnings
      invariant !Combine(outcomes[..i]).panicked
    {
      CombineStep(outcomes, i);
      n.Warnings := n.Warnings + outcomes[i].warnings;
      if outcomes[i].panicked {
        CombinePanicked(outcomes, i + 1);
        return true;
      }
    }
    assert outcomes[..|outcomes|] == outcomes;
    return false;
  }

  // ---------------------------------------------------------------------------------------
  // Explain checks
  // ---------------------------------------------------------------------------------------

  /** How many nodes are Broadcast or Redistribute motions. */
  function MotionCount(nodes: seq<Node>): (c: nat)
    reads nodes`Operator
    ensures c <= |nodes|
  {
    if |nodes| == 0 then 0
    else MotionCount(nodes[..|nodes| - 1]) + (if IsMotionOperator(nodes[|nodes| - 1].Operator) then 1 else 0)
  }

  /** Motions are counted part by part: the count over consecutive node lists is the sum. */
  lemma {:induction false} MotionCountAppend(a: seq<Node>, b: seq<Node>)
    ensures MotionCount(a + b) == MotionCount(a) + MotionCount(b)
    decreases |b|
  {
    if |b| == 0 {
      assert a + b == a;
    } else {
      var init := b[..|b| - 1];
      MotionCountAppend(a, init);
      assert (a + b)[..|a + b| - 1] == a + init;
      assert (a + b)[|a + b| - 1] == b[|b| - 1];
    }
  }

  /** checkExplainMotionCount: five or more motions warn once. */
  function MotionRule(nodes: seq<Node>): (ws: seq<Warning>)
    reads nodes`Operator
    ensures |ws| <= 1 && (ws != [] <==> MotionCount(nodes) >= 5)
  {
    var c := MotionCount(nodes);
    if c >= 5 then [Warning("Found " + FormatInt(c) + " Redistribute/Broadcast motions", ReviewQuery)] else []
  }

  /** The motion check as the source runs it: a counting loop, then the threshold. */
  method CheckMotionCount(nodes: seq<Node>) returns (ws: seq<Warning>)
    ensures ws == MotionRule(nodes)
  {
    var count := 0;
    for i := 0 to |nodes|
      invariant count == MotionCount(nodes[..i])
    {
      assert nodes[..i + 1][..i] == nodes[..i];
      if IsMotionOperator(nodes[i].Operator) {
        count := count + 1;
      }
    }
    assert nodes[..|nodes|] == nodes;
    if count >= 5 {
      ws := [Warning("Found " + FormatInt(count) + " Redistribute/Broadcast motions", ReviewQuery)];
    } else {
      ws := [];
    }
  }

  /** How many nodes carry a slice number (nodes, not distinct slice ids). */
  function SliceCount(nodes: seq<Node>): (c: nat)
    reads nodes`Slice
    ensures c <= |nodes|
  {
    if |nodes| == 0 then 0
    else SliceCount(nodes[..|nodes| - 1]) + (if nodes[|nodes| - 1].Slice > -1 then 1 else 0)
  }

  /** The slice count is the number of positions whose node has a slice, repeated ids included. */
  lemma {:induction false} SliceCountCountsPositions(nodes: seq<Node>)
    ensures SliceCount(nodes) == |set k | 0 <= k < |nodes| && nodes[k].Slice > -1|
  {
    if |nodes| > 0 {
      var init := nodes[..|nodes| - 1];
      SliceCountCountsPositions(init);
      var before := set k | 0 <= k < |init| && init[k].Slice > -1;
      var after := set k | 0 <= k < |nodes| && nodes[k].Slice > -1;
      var last := if nodes[|nodes| - 1].Slice > -1 then {|nodes| - 1} else {};
      forall k ensures k in after <==> k in before + last {
        if 0 <= k < |init| {
          assert init[k] == nodes[k];
        }
      }
      assert after == before + last;
      assert before !! last;
    }
  }

  /** checkExplainSliceCount: more than 100 sliced nodes warn once. */
  function SliceRule(nodes: seq<Node>): (ws: seq<Warning>)
    reads nodes`Slice
    ensures |ws| <= 1 && (ws != [] <==> SliceCount(nodes) > 100)
  {
    var c := SliceCount(nodes);
    if c > 100 then [Warning("Found " + FormatInt(c) + " slices", ReviewQuery)] else []
  }

  method CheckSliceCount(nodes: seq<Node>) returns (ws: seq<Warning>)
    ensures ws == SliceRule(nodes)
  {
    var count := 0;
    for i := 0 to |nodes|
      invariant count == SliceCount(nodes[..i])
    {
      assert nodes[..i + 1][..i] == nodes[..i];
      if nodes[i].Slice > -1 {
        count := count + 1;
      }
    }
    assert nodes[..|nodes|] == nodes;
    if count > 100 {
      ws := [Warning("Found " + FormatInt(count) + " slices", ReviewQuery)];
    } else {
      ws := [];
    }
  }

  const FallbackWarning := Warning("ORCA enabled but plan was produced by legacy query optimizer", "No Action Required")

  /** Some setting is exactly `optimizer=on`. */
  predicate OrcaEnabled(settings: seq<Setting>) {
    exists k | 0 <= k < |settings| :: settings[k].name == "optimizer" && settings[k].value == "on"
  }

  /** checkExplainPlannerFallback: ORCA was on but the legacy planner produced the plan; at most one warning. */
  function FallbackRule(optimizerStatus: string, settings: seq<Setting>): (ws: seq<Warning>)
    ensures ws == [] || ws == [FallbackWarning]
    ensures ws != [] <==> Contains(optimizerStatus, "legacy query optimizer") && OrcaEnabled(settings)
  {
    if Contains(optimizerStatus, "legacy query optimizer") && OrcaEnabled(settings) then [FallbackWarning] else []
  }

  /** The fallback check as the source runs it: a search over the settings that stops at the first hit. */
  method CheckPlannerFallback(optimizerStatus: string, settings: seq<Setting>) returns (ws: seq<Warning>)
    ensures ws == FallbackRule(optimizerStatus, settings)
  {
    ws := [];
    if Contains(optimizerStatus, "legacy query optimizer") {
      var i := 0;
      while i < |settings|
        invariant 0 <= i <= |settings|
        invariant forall k | 0 <= k < i :: !(settings[k].name == "optimizer" && settings[k].value == "on")
      {
        if settings[i].name == "optimizer" && settings[i].value == "on" {
          ws := [FallbackWarning];
          return;
        }
        i := i + 1;
      }
    }
  }

  /** The default values of the `enable_` GUCs the check knows about. */
  const GucDefaults: map<string, string> := map[
    "enable_bitmapscan" := "on",
    "enable_groupagg" := "on",
    "enable_hashagg" := "on",
    "enable_hashjoin" := "on",
    "enable_indexscan" := "on",
    "enable_seqscan" := "on",
    "enable_sort" := "on",
    "enable_tidscan" := "on",
    "enable_nestloop" := "off",
    "enable_mergejoin" := "off"
  ]

  /** A known `enable_` GUC set to something other than its default. */
  predicate NonDefaultGuc(s: Setting) {
    Contains(s.name, "enable_") && s.name in GucDefaults && s.value != GucDefaults[s.name]
  }

  function GucWarning(s: Setting): Warning {
    Warning("\"" + s.name + "\" GUC has non-default value \"" + s.value + "\"",
            "Check if \"" + s.name + "\" GUC is required")
  }

  /** checkExplainEnableGucNonDefault: one warning per non-default known GUC, in settings order. */
  function GucRule(settings: seq<Setting>): seq<Warning> {
    if |settings| == 0 then []
    else
      var last := settings[|settings| - 1];
      GucRule(settings[..|settings| - 1]) + (if NonDefaultGuc(last) then [GucWarning(last)] else [])
  }

  /** The GUC warnings of consecutive settings are the warnings of each part, in order. */
  lemma {:induction false} GucRuleAppend(a: seq<Setting>, b: seq<Setting>)
    ensures GucRule(a + b) == GucRule(a) + GucRule(b)
    decreases |b|
  {
    if |b| == 0 {
      assert a + b == a;
    } else {
      var init := b[..|b| - 1];
      GucRuleAppend(a, init);
      assert (a + b)[..|a + b| - 1] == a + init;
      assert (a + b)[|a + b| - 1] == b[|b| - 1];
    }
  }

  /** A setting gives a warning exactly when it is a known GUC off its default, and then the one naming it. */
  lemma GucRuleOfOne(s: Setting)
    ensures GucRule([s]) == if NonDefaultGuc(s) then [GucWarning(s)] else []
  {
    assert [s][..0] == [];
  }

  /** The GUC check as the source runs it: one pass over the settings. */
  method CheckGucs(settings: seq<Setting>) returns (ws: seq<Warning>)
    ensures ws == GucRule(settings)
  {
    ws := [];
    for i := 0 to |settings|
      invariant ws == GucRule(settings[..i])
    {
      assert settings[..i + 1][..i] == settings[..i];
      var s := settings[i];
      if Contains(s.name, "enable_") && s.name in GucDefaults {
        if s.value != GucDefaults[s.name] {
          ws := ws + [GucWarning(s)];
        }
      }
    }
    assert settings[..|settings|] == settings;
  }

  const ChildPartitionWarning :=
    Warning("Scan on what appears to be a child partition", "Recommend using root partition when ORCA is enabled")

  /** `_[0-9]+_prt_` in the operator text: a scan of a child partition. */
  predicate IsChildPartitionScan(operator: string) {
    Find(operator, ChildPartitionShape).Some?
  }

  /** `w`, `k` times. */
  function Repeat(w: Warning, k: nat): (ws: seq<Warning>)
    ensures |ws| == k && forall i | 0 <= i < k :: ws[i] == w
  {
    if k == 0 then [] else Repeat(w, k - 1) + [w]
  }

  /** How many warnings `m` gets from the child-partition check over `nodes`. */
  function ChildPartitionHits(nodes: seq<Node>, optimizer: string, m: Node): nat
    reads m`Operator
  {
    if optimizer == "on" && IsChildPartitionScan(m.Operator) then multiset(nodes)[m] else 0
  }

  /**
   * checkExplainOrcaChildPartitionScan: only when the optimizer setting is "on", each node
   * scanning a child partition gets the warning on its own list (once per time it is listed).
   */
  method CheckChildPartitions(nodes: seq<Node>, optimizer: string)
    modifies nodes`Warnings
    ensures forall m | m in nodes ::
      m.Warnings == old(m.Warnings) + Repeat(ChildPartitionWarning, ChildPartitionHits(nodes, optimizer, m))
    ensures MotionRule(nodes) == old(MotionRule(nodes)) && SliceRule(nodes) == old(SliceRule(nodes))
  {
    if optimizer != "on" {
      return;
    }
    for i := 0 to |nodes|
      invariant forall m | m in nodes ::
        m.Warnings == old(m.Warnings) + Repeat(ChildPartitionWarning, ChildPartitionHits(nodes[..i], optimizer, m))
    {
      assert nodes[..i + 1] == nodes[..i] + [nodes[i]];
      if IsChildPartitionScan(nodes[i].Operator) {
        nodes[i].Warnings := nodes[i].Warnings + [ChildPartitionWarning];
      }
    }
    assert nodes[..|nodes|] == nodes;
  }
}
