/**
 * The plan tree's objects (plan/node.go and the type declarations of plan/explain.go): a
 * `Node` per operator line of the EXPLAIN text, a `Plan` per plan or SubPlan, and the
 * per-node roll-up of cost and time that subtracts what the children account for.
 *
 * Costs, row counts and times are Go `float64` in the source and `real` here; the int64
 * fields are `int`. A division whose result Go would give as an infinity or NaN is a
 * `NonFinite` percentage.
 */
module PlanNode {

  /** A warning attached to a node or to the whole explain output. */
  datatype Warning = Warning(cause: string, resolution: string)

  /** A GUC setting from the "Settings:" line. */
  datatype Setting = Setting(name: string, value: string)

  /** A float64 percentage: finite, or the infinity/NaN a division by zero yields. */
  datatype Percent = Finite(value: real) | NonFinite

  /** The value below zero is replaced by zero. */
  function Max0(x: real): (r: real)
    ensures r >= 0.0 && r >= x
    ensures x >= 0.0 ==> r == x
  {
    if x < 0.0 then 0.0 else x
  }

  /** `part / total * 100` in float64. */
  function Percentage(part: real, total: real): (r: Percent)
    ensures r.NonFinite? <==> total == 0.0
  {
    if total == 0.0 then NonFinite else Finite(part / total * 100.0)
  }

  /** A finite percentage is the part scaled to a total of 100. */
  lemma PercentageScales(part: real, total: real)
    requires total != 0.0
    ensures Percentage(part, total).value * total == part * 100.0
  {
  }

  /** A share of a positive total that lies between zero and the total is between 0 and 100 percent. */
  lemma PercentageBounded(part: real, total: real)
    requires 0.0 <= part <= total && total > 0.0
    ensures Percentage(part, total).Finite?
    ensures 0.0 <= Percentage(part, total).value <= 100.0
  {
  }

  /** Sum of the children's `MsEnd`, in list order. */
  function SumMsEnd(ns: seq<Node>): real
    reads ns`MsEnd
  {
    if |ns| == 0 then 0.0 else SumMsEnd(ns[..|ns| - 1]) + ns[|ns| - 1].MsEnd
  }

  /** Sum of the nodes' `TotalCost`, in list order. */
  function SumTotalCost(ns: seq<Node>): real
    reads ns`TotalCost
  {
    if |ns| == 0 then 0.0 else SumTotalCost(ns[..|ns| - 1]) + ns[|ns| - 1].TotalCost
  }

  /** The top nodes of a list of sub-plans. */
  function TopNodes(ps: seq<Plan>): (ns: seq<Node>)
    reads ps`TopNode
    ensures |ns| == |ps| && forall k | 0 <= k < |ps| :: ns[k] == ps[k].TopNode
  {
    if |ps| == 0 then [] else TopNodes(ps[..|ps| - 1]) + [ps[|ps| - 1].TopNode]
  }

  /** The time a node spends itself: its `MsEnd` less its child nodes' (sub-plans do not count), at least 0. */
  function SelfMs(n: Node): real
    reads n`MsEnd, n`SubNodes, n.SubNodes`MsEnd
  {
    Max0(n.MsEnd - SumMsEnd(n.SubNodes))
  }

  /** The cost a node adds itself: its `TotalCost` less its child nodes' and sub-plans' top nodes', at least 0. */
  function SelfCost(n: Node): real
    reads n`TotalCost, n`SubNodes, n`SubPlans, n.SubNodes`TotalCost, n.SubPlans`TopNode
    reads (set p | p in n.SubPlans :: p.TopNode)`TotalCost
  {
    Max0(n.TotalCost - (SumTotalCost(n.SubNodes) + SumTotalCost(TopNodes(n.SubPlans))))
  }

  lemma {:induction false} SumTotalCostNonNegative(ns: seq<Node>)
    requires forall k | 0 <= k < |ns| :: ns[k].TotalCost >= 0.0
    ensures SumTotalCost(ns) >= 0.0
  {
    if |ns| > 0 {
      SumTotalCostNonNegative(ns[..|ns| - 1]);
    }
  }

  /** With non-negative costs a node never adds more than its own total cost. */
  lemma SelfCostBounded(n: Node)
    requires n.TotalCost >= 0.0
    requires forall k | 0 <= k < |n.SubNodes| :: n.SubNodes[k].TotalCost >= 0.0
    requires forall k | 0 <= k < |n.SubPlans| :: n.SubPlans[k].TopNode.TotalCost >= 0.0
    ensures 0.0 <= SelfCost(n) <= n.TotalCost
  {
    SumTotalCostNonNegative(n.SubNodes);
    SumTotalCostNonNegative(TopNodes(n.SubPlans));
  }

  lemma {:induction false} SumMsEndOfSentinels(ns: seq<Node>)
    requires forall k | 0 <= k < |ns| :: ns[k].MsEnd == -1.0
    ensures SumMsEnd(ns) == -(|ns| as real)
  {
    if |ns| > 0 {
      SumMsEndOfSentinels(ns[..|ns| - 1]);
    }
  }

  /**
   * Sentinels are not filtered out: a node without EXPLAIN ANALYZE times (`MsEnd` -1) whose
   * k children have none either is given a self time of max(0, k - 1).
   */
  lemma SelfMsOfSentinels(n: Node)
    requires n.MsEnd == -1.0
    requires forall k | 0 <= k < |n.SubNodes| :: n.SubNodes[k].MsEnd == -1.0
    ensures SelfMs(n) == if |n.SubNodes| == 0 then 0.0 else (|n.SubNodes| - 1) as real
  {
    SumMsEndOfSentinels(n.SubNodes);
  }

  class Node {
    // Where the node's line is in the text: leading spaces and line number.
    const Indent: int
    const Offset: int

    // Read from the node's own line.
    var Operator: string
    var Object: string
    var ObjectType: string
    var Slice: int
    var StartupCost: real
    var TotalCost: real
    var NodeCost: real
    var PrctCost: Percent
    var Rows: int
    var Width: int

    // Read from the EXPLAIN ANALYZE lines below the node.
    var ActualRows: real
    var AvgRows: real
    var Workers: int
    var MaxRows: real
    var MaxSeg: string
    var Scans: int
    var MsFirst: real
    var MsEnd: real
    var MsOffset: real
    var MsNode: real
    var MsPrct: Percent
    var AvgMem: real
    var MaxMem: real
    var SpillFile: int
    var SpillReuse: int
    var PartSelected: int
    var PartSelectedTotal: int
    var PartScanned: int
    var PartScannedTotal: int
    var Filter: string

    /** The node's own line followed by the lines collected below it. */
    var ExtraInfo: seq<string>

    var SubNodes: seq<Node>
    var SubPlans: seq<Plan>
    var Warnings: seq<Warning>
    var IsAnalyzed: bool

    /**
     * A node with the given position and collected lines and every other field at Go's zero
     * value. The position is set once, when the node is created, and never changes.
     */
    constructor (indent: int, offset: int, extraInfo: seq<string>)
      ensures Indent == indent && Offset == offset && ExtraInfo == extraInfo
      ensures Zero()
    {
      Indent, Offset := indent, offset;
      Operator, Object, ObjectType := "", "", "";
      Slice, StartupCost, TotalCost, NodeCost, PrctCost := 0, 0.0, 0.0, 0.0, Finite(0.0);
      Rows, Width := 0, 0;
      ActualRows, AvgRows, Workers, MaxRows, MaxSeg, Scans := 0.0, 0.0, 0, 0.0, "", 0;
      MsFirst, MsEnd, MsOffset, MsNode, MsPrct := 0.0, 0.0, 0.0, 0.0, Finite(0.0);
      AvgMem, MaxMem, SpillFile, SpillReuse := 0.0, 0.0, 0, 0;
      PartSelected, PartSelectedTotal, PartScanned, PartScannedTotal := 0, 0, 0, 0;
      Filter := "";
      ExtraInfo, SubNodes, SubPlans, Warnings := extraInfo, [], [], [];
      IsAnalyzed := false;
    }

    /** Every field but the position and the collected lines holds Go's zero value; no links, no warnings. */
    predicate Zero()
      reads this
    {
      && Operator == "" && Object == "" && ObjectType == "" && Slice == 0
      && StartupCost == 0.0 && TotalCost == 0.0 && NodeCost == 0.0 && PrctCost == Finite(0.0)
      && Rows == 0 && Width == 0
      && ActualRows == 0.0 && AvgRows == 0.0 && Workers == 0 && MaxRows == 0.0 && MaxSeg == "" && Scans == 0
      && MsFirst == 0.0 && MsEnd == 0.0 && MsOffset == 0.0 && MsNode == 0.0 && MsPrct == Finite(0.0)
      && AvgMem == 0.0 && MaxMem == 0.0 && SpillFile == 0 && SpillReuse == 0
      && PartSelected == 0 && PartSelectedTotal == 0 && PartScanned == 0 && PartScannedTotal == 0
      && Filter == "" && SubNodes == [] && SubPlans == [] && Warnings == [] && !IsAnalyzed
    }

    /** Every EXPLAIN ANALYZE field holds its "not reported" value. */
    predicate AtSentinels()
      reads this
    {
      ActualRows == -1.0 && AvgRows == -1.0 && Workers == -1 && MaxRows == -1.0 && MaxSeg == "-" && Scans == -1
      && MsFirst == -1.0 && MsEnd == -1.0 && MsOffset == -1.0
      && AvgMem == -1.0 && MaxMem == -1.0 && SpillFile == -1 && SpillReuse == -1
      && PartSelected == -1 && PartSelectedTotal == -1 && PartScanned == -1 && PartScannedTotal == -1
      && Filter == "" && !IsAnalyzed
    }

    /** Init: resets the EXPLAIN ANALYZE fields; the frame says no other field changes. */
    method Init()
      modifies this`ActualRows, this`AvgRows, this`Workers, this`MaxRows, this`MaxSeg, this`Scans
      modifies this`MsFirst, this`MsEnd, this`MsOffset, this`AvgMem, this`MaxMem
      modifies this`SpillFile, this`SpillReuse, this`PartSelected, this`PartSelectedTotal
      modifies this`PartScanned, this`PartScannedTotal, this`Filter, this`IsAnalyzed
      ensures AtSentinels()
    {
      ResetRows();
      ResetTimes();
      ResetMemory();
      ResetPartitions();
      ResetFlags();
    }

    method ResetFlags()
      modifies this`Filter, this`IsAnalyzed
      ensures Filter == "" && !IsAnalyzed
    {
      Filter := "";
      IsAnalyzed := false;
    }

    method ResetRows()
      modifies this`ActualRows, this`AvgRows, this`Workers, this`MaxRows, this`MaxSeg, this`Scans
      ensures ActualRows == -1.0 && AvgRows == -1.0 && Workers == -1 && MaxRows == -1.0 && MaxSeg == "-" && Scans == -1
    {
      ActualRows := -1.0;
      AvgRows := -1.0;
      Workers := -1;
      MaxRows := -1.0;
      MaxSeg := "-";
      Scans := -1;
    }

    method ResetTimes()
      modifies this`MsFirst, this`MsEnd, this`MsOffset
      ensures MsFirst == -1.0 && MsEnd == -1.0 && MsOffset == -1.0
    {
      MsFirst := -1.0;
      MsEnd := -1.0;
      MsOffset := -1.0;
    }

    method ResetMemory()
      modifies this`AvgMem, this`MaxMem, this`SpillFile, this`SpillReuse
      ensures AvgMem == -1.0 && MaxMem == -1.0 && SpillFile == -1 && SpillReuse == -1
    {
      AvgMem := -1.0;
      MaxMem := -1.0;
      SpillFile := -1;
      SpillReuse := -1;
    }

    method ResetPartitions()
      modifies this`PartSelected, this`PartSelectedTotal, this`PartScanned, this`PartScannedTotal
      ensures PartSelected == -1 && PartSelectedTotal == -1 && PartScanned == -1 && PartScannedTotal == -1
    {
      PartSelected := -1;
      PartSelectedTotal := -1;
      PartScanned := -1;
      PartScannedTotal := -1;
    }

    /**
     * CalculateSubNodeDiff: the node's own time and cost, after taking off what its children
     * report. Only `MsNode` and `NodeCost` change, and `SelfMs`/`SelfCost` read neither, so
     * the values stay what the children and sub-plans report after the call as well.
     */
    method CalculateSubNodeDiff()
      modifies this`MsNode, this`NodeCost
      ensures MsNode == old(SelfMs(this))
      ensures NodeCost == old(SelfCost(this))
    {
      var msChild := 0.0;
      var costChild := 0.0;
      var k := 0;
      while k < |SubNodes|
        invariant 0 <= k <= |SubNodes|
        invariant msChild == SumMsEnd(SubNodes[..k])
        invariant costChild == SumTotalCost(SubNodes[..k])
      {
        assert SubNodes[..k + 1][..k] == SubNodes[..k];
        msChild := msChild + SubNodes[k].MsEnd;
        costChild := costChild + SubNodes[k].TotalCost;
        k := k + 1;
      }
      assert SubNodes[..k] == SubNodes;
      var planCost := 0.0;
      k := 0;
      while k < |SubPlans|
        invariant 0 <= k <= |SubPlans|
        invariant planCost == SumTotalCost(TopNodes(SubPlans[..k]))
      {
        assert TopNodes(SubPlans[..k + 1])[..k] == TopNodes(SubPlans[..k]);
        planCost := planCost + SubPlans[k].TopNode.TotalCost;
        k := k + 1;
      }
      assert SubPlans[..k] == SubPlans;
      costChild := costChild + planCost;

      var ms := MsEnd - msChild;
      var cost := TotalCost - costChild;
      if ms < 0.0 {
        ms := 0.0;
      }
      if cost < 0.0 {
        cost := 0.0;
      }
      MsNode, NodeCost := ms, cost;
    }

    /** CalculatePercentage: cost and time shares of the given totals, with no guard for a zero total. */
    method CalculatePercentage(totalCost: real, totalMs: real)
      modifies this`PrctCost, this`MsPrct
      ensures PrctCost == Percentage(NodeCost, totalCost)
      ensures MsPrct == Percentage(MsNode, totalMs)
    {
      PrctCost := Percentage(NodeCost, totalCost);
      MsPrct := Percentage(MsNode, totalMs);
    }
  }

  /** A plan: the implicit top plan or a SubPlan, with the node that heads it. */
  class Plan {
    const Name: string
    const Indent: int
    const Offset: int
    var TopNode: Node

    /** createPlan's object: `TopNode` starts as a fresh zero node until the tree is built. */
    constructor (name: string, indent: int, offset: int)
      ensures Name == name && Indent == indent && Offset == offset
      ensures fresh(TopNode) && TopNode.Zero()
      ensures TopNode.Indent == 0 && TopNode.Offset == 0 && TopNode.ExtraInfo == []
    {
      Name, Indent, Offset := name, indent, offset;
      TopNode := new Node(0, 0, []);
    }
  }
}
