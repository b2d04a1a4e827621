/**
 * BuildTree (plan/explain.go): turning the flat lists of node lines and plan lines into a
 * tree. A plan line hangs under the last node line that lies above it and is less indented;
 * a node line heads the plan on the line just above it, two columns to its left, or else
 * becomes a child of the last earlier node line that is less indented, or else the top node
 * of the main plan.
 *
 * Where a line sits (indent and line number) is all the searches look at, so they are
 * specified on `Pos` values; the method then writes the links into the objects.
 */
module PlanTree {
  import opened Wrappers
  import opened PlanNode

  /** Where a node or plan line sits: its indentation and its line number. */
  datatype Pos = Pos(indent: int, offset: int)

  /** Where a node goes: the top node of a plan, or a child of a node. */
  datatype Attach = ToPlan(plan: nat) | ToNode(node: nat)

  /** The plan search as written scans every plan, the implicit top plan (index 0) included. */
  const FirstPlanSearchedAsWritten := 0
  /** The plan search as intended scans SubPlans only. */
  const FirstPlanSearched := 1

  function NodePositions(nodes: seq<Node>): (r: seq<Pos>)
    ensures |r| == |nodes|
    ensures forall k | 0 <= k < |nodes| :: r[k] == Pos(nodes[k].Indent, nodes[k].Offset)
  {
    if |nodes| == 0 then []
    else NodePositions(nodes[..|nodes| - 1]) + [Pos(nodes[|nodes| - 1].Indent, nodes[|nodes| - 1].Offset)]
  }

  function PlanPositions(plans: seq<Plan>): (r: seq<Pos>)
    ensures |r| == |plans|
    ensures forall k | 0 <= k < |plans| :: r[k] == Pos(plans[k].Indent, plans[k].Offset)
  {
    if |plans| == 0 then []
    else PlanPositions(plans[..|plans| - 1]) + [Pos(plans[|plans| - 1].Indent, plans[|plans| - 1].Offset)]
  }

  // ---------------------------------------------------------------------------------------
  // The three searches
  // ---------------------------------------------------------------------------------------

  /** A plan line lies below and to the right of a node line. */
  predicate Encloses(node: Pos, plan: Pos) {
    plan.indent > node.indent && plan.offset > node.offset
  }

  /** A node line sits on the line after a plan line, two columns further in. */
  predicate Heads(plan: Pos, node: Pos) {
    node.indent - 2 == plan.indent && node.offset - 1 == plan.offset
  }

  /** The last of the first `k` node lines that a plan line lies below and to the right of. */
  function LastEnclosing(ns: seq<Pos>, plan: Pos, k: nat): (h: Option<nat>)
    requires k <= |ns|
    ensures h.Some? ==> h.value < k && Encloses(ns[h.value], plan)
    ensures h.Some? ==> forall p | h.value < p < k :: !Encloses(ns[p], plan)
    ensures h.None? ==> forall p | 0 <= p < k :: !Encloses(ns[p], plan)
  {
    if k == 0 then None
    else if Encloses(ns[k - 1], plan) then Some(k - 1)
    else LastEnclosing(ns, plan, k - 1)
  }

  /** The last plan among indices `lo` to `k - 1` that a node line heads. */
  function LastHeaded(ps: seq<Pos>, node: Pos, lo: nat, k: nat): (h: Option<nat>)
    requires k <= |ps|
    ensures h.Some? ==> lo <= h.value < k && Heads(ps[h.value], node)
    ensures h.Some? ==> forall q | h.value < q < k :: !Heads(ps[q], node)
    ensures h.None? ==> forall q | lo <= q < k :: !Heads(ps[q], node)
    decreases k
  {
    if k <= lo then None
    else if Heads(ps[k - 1], node) then Some(k - 1)
    else LastHeaded(ps, node, lo, k - 1)
  }

  /** The last of the first `k` node lines that is less indented than `node`. */
  function LastShallower(ns: seq<Pos>, node: Pos, k: nat): (h: Option<nat>)
    requires k <= |ns|
    ensures h.Some? ==> h.value < k && ns[h.value].indent < node.indent
    ensures h.Some? ==> forall p | h.value < p < k :: ns[p].indent >= node.indent
    ensures h.None? ==> forall p | 0 <= p < k :: ns[p].indent >= node.indent
  {
    if k == 0 then None
    else if ns[k - 1].indent < node.indent then Some(k - 1)
    else LastShallower(ns, node, k - 1)
  }

  /** The node plan `i` hangs under, if any. */
  function PlanHost(ns: seq<Pos>, ps: seq<Pos>, i: nat): Option<nat>
    requires i < |ps|
  {
    LastEnclosing(ns, ps[i], |ns|)
  }

  /** Where node `i` goes when the plan search starts at plan `lo`. */
  function Target(ns: seq<Pos>, ps: seq<Pos>, i: nat, lo: nat): (t: Attach)
    requires i < |ns|
    ensures t.ToPlan? ==> t.plan == 0 || (lo <= t.plan < |ps| && Heads(ps[t.plan], ns[i]))
    ensures t.ToNode? ==> t.node < i && ns[t.node].indent < ns[i].indent
    ensures t.ToNode? ==> forall q | lo <= q < |ps| :: !Heads(ps[q], ns[i])
  {
    match LastHeaded(ps, ns[i], lo, |ps|)
    case Some(q) => ToPlan(q)
    case None =>
      match LastShallower(ns, ns[i], i)
      case Some(p) => ToNode(p)
      case None => ToPlan(0)
  }

  // ---------------------------------------------------------------------------------------
  // The links the two passes write
  // ---------------------------------------------------------------------------------------

  /** The host of every plan, by plan index. */
  function Hosts(ns: seq<Pos>, ps: seq<Pos>): (hs: seq<Option<nat>>)
    ensures |hs| == |ps| && forall i | 0 <= i < |ps| :: hs[i] == PlanHost(ns, ps, i)
  {
    seq(|ps|, i requires 0 <= i < |ps| => PlanHost(ns, ps, i))
  }

  /** Where every node goes, by node index, when the plan search starts at plan `lo`. */
  function Targets(ns: seq<Pos>, ps: seq<Pos>, lo: nat): (ts: seq<Attach>)
    ensures |ts| == |ns| && forall i | 0 <= i < |ns| :: ts[i] == Target(ns, ps, i, lo)
  {
    seq(|ns|, i requires 0 <= i < |ns| => Target(ns, ps, i, lo))
  }

  /**
   * The first index from `from` on where `xs` holds `x`. The node pass walks backwards and
   * each write to a plan's top node replaces the previous one, so the first node that goes
   * to a plan is the one that ends up heading it.
   */
  function FirstIndexOf<T(==)>(xs: seq<T>, x: T, from: nat): (h: Option<nat>)
    requires from <= |xs|
    ensures h.Some? ==> from <= h.value < |xs| && xs[h.value] == x
    ensures h.Some? ==> forall j | from <= j < h.value :: xs[j] != x
    ensures h.None? ==> forall j | from <= j < |xs| :: xs[j] != x
    decreases |xs| - from
  {
    if from == |xs| then None
    else if xs[from] == x then Some(from)
    else FirstIndexOf(xs, x, from + 1)
  }

  /**
   * What a pass that walks `xs` backwards down to index `from`, putting `objs[j]` in front
   * whenever `xs[j]` is `x`, puts in front of what was there.
   */
  function Collect<T, U(==)>(objs: seq<T>, xs: seq<U>, x: U, from: nat): seq<T>
    requires from <= |xs| == |objs|
    decreases |xs| - from
  {
    if from == |xs| then [] else (if xs[from] == x then [objs[from]] else []) + Collect(objs, xs, x, from + 1)
  }

  /** Every object at an index where `xs` holds `x` is collected. */
  lemma {:induction false} CollectHas<T, U>(objs: seq<T>, xs: seq<U>, x: U, from: nat, j: nat)
    requires from <= j < |xs| == |objs| && xs[j] == x
    ensures objs[j] in Collect(objs, xs, x, from)
    decreases |xs| - from
  {
    if from < j {
      CollectHas(objs, xs, x, from + 1, j);
    }
  }

  /** The indices below `n`, in order. */
  function Range(n: nat): (r: seq<nat>)
    ensures |r| == n && forall k | 0 <= k < n :: r[k] == k
  {
    seq(n, k => k)
  }

  // ---------------------------------------------------------------------------------------
  // The tree is a tree
  // ---------------------------------------------------------------------------------------

  /**
   * What the line collector produces when the text has a plan node before any SubPlan line:
   * node lines on increasing line numbers, the first at indent 0 or 1 and the rest at 2 or
   * more; plan 0 the implicit top plan (indent 0, on the first node's line); every other
   * plan line after the first node.
   */
  predicate WellFormed(ns: seq<Pos>, ps: seq<Pos>) {
    && |ns| > 0 && |ps| > 0
    && ps[0] == Pos(0, ns[0].offset)
    && 0 <= ns[0].indent <= 1
    && (forall i | 1 <= i < |ns| :: ns[i].indent >= 2)
    && (forall i, j | 0 <= i < j < |ns| :: ns[i].offset < ns[j].offset)
    && (forall q | 1 <= q < |ps| :: ps[q].offset > ns[0].offset)
  }

  /** Node `i` ends up in the tree: in its parent's children, or heading its plan. */
  predicate Placed(ns: seq<Pos>, ps: seq<Pos>, i: nat, lo: nat)
    requires i < |ns|
  {
    var ts := Targets(ns, ps, lo);
    match ts[i]
    case ToNode(p) => i in Collect(Range(|ns|), ts, ToNode(p), 0)
    case ToPlan(q) => FirstIndexOf(ts, ToPlan(q), 0) == Some(i)
  }

  /**
   * With the SubPlan-only search, the first node heads the main plan and every other node
   * is a child of an earlier node or heads a SubPlan, and every node ends up in the tree.
   */
  lemma EveryNodePlaced(ns: seq<Pos>, ps: seq<Pos>)
    requires WellFormed(ns, ps)
    ensures Target(ns, ps, 0, FirstPlanSearched) == ToPlan(0)
    ensures forall i | 1 <= i < |ns| :: Target(ns, ps, i, FirstPlanSearched).ToNode? || Target(ns, ps, i, FirstPlanSearched).plan >= 1
    ensures forall i | 0 <= i < |ns| :: Placed(ns, ps, i, FirstPlanSearched)
  {
    var lo := FirstPlanSearched;
    assert LastHeaded(ps, ns[0], lo, |ps|).None?;
    forall i | 1 <= i < |ns|
      ensures Target(ns, ps, i, lo).ToNode? || Target(ns, ps, i, lo).plan >= 1
    {
      assert LastShallower(ns, ns[i], i).Some?;
    }
    forall i | 0 <= i < |ns|
      ensures Placed(ns, ps, i, lo)
    {
      match Target(ns, ps, i, lo)
      case ToNode(p) =>
        CollectHas(Range(|ns|), Targets(ns, ps, lo), ToNode(p), 0, i);
      case ToPlan(q) =>
        var ts := Targets(ns, ps, lo);
        if i == 0 {
          assert FirstIndexOf(ts, ToPlan(q), 0) == Some(0);
        } else {
          forall j | 0 <= j < i
            ensures ts[j] != ToPlan(q)
          {
          }
        }
    }
  }

  /**
   * As written, the plan search also tries the implicit top plan: a first node at indent 0
   * on line 5 followed by a node at indent 2 on line 6 sends both to plan 0; the first one
   * is written last and wins, and the second node is in no list at all.
   */
  lemma AsWrittenOrphansNode()
    ensures WellFormed([Pos(0, 5), Pos(2, 6)], [Pos(0, 5)])
    ensures Target([Pos(0, 5), Pos(2, 6)], [Pos(0, 5)], 1, FirstPlanSearchedAsWritten) == ToPlan(0)
    ensures !Placed([Pos(0, 5), Pos(2, 6)], [Pos(0, 5)], 1, FirstPlanSearchedAsWritten)
  {
    var ns, ps := [Pos(0, 5), Pos(2, 6)], [Pos(0, 5)];
    assert LastHeaded(ps, ns[0], 0, 1).None?;
    var ts := Targets(ns, ps, 0);
    assert ts[0] == ToPlan(0);
    assert FirstIndexOf(ts, ToPlan(0), 0) == Some(0);
  }

  /** No node line sits on the line after the top plan, two columns further in. */
  predicate TopPlanUnheaded(ns: seq<Pos>, ps: seq<Pos>)
    requires |ps| > 0
  {
    forall i | 0 <= i < |ns| :: !Heads(ps[0], ns[i])
  }

  /** A plan search that also tries plan 0 finds what the SubPlan-only one finds when no node heads plan 0. */
  lemma {:induction false} LastHeadedSkipsUnheaded(ps: seq<Pos>, node: Pos, k: nat)
    requires 1 <= k <= |ps| && !Heads(ps[0], node)
    ensures LastHeaded(ps, node, FirstPlanSearchedAsWritten, k) == LastHeaded(ps, node, FirstPlanSearched, k)
  {
    if k > 1 && !Heads(ps[k - 1], node) {
      LastHeadedSkipsUnheaded(ps, node, k - 1);
    }
  }

  /**
   * Where the search starts makes no difference when no node heads the top plan, so on such
   * a text the search as written places every node as the SubPlan-only one does.
   */
  lemma SearchStartIrrelevant(ns: seq<Pos>, ps: seq<Pos>)
    requires |ps| > 0 && TopPlanUnheaded(ns, ps)
    ensures Targets(ns, ps, FirstPlanSearchedAsWritten) == Targets(ns, ps, FirstPlanSearched)
  {
    forall i | 0 <= i < |ns|
      ensures Target(ns, ps, i, FirstPlanSearchedAsWritten) == Target(ns, ps, i, FirstPlanSearched)
    {
      LastHeadedSkipsUnheaded(ps, ns[i], |ps|);
    }
  }

  // ---------------------------------------------------------------------------------------
  // The method
  // ---------------------------------------------------------------------------------------

  predicate DistinctNodes(nodes: seq<Node>) {
    forall i, j | 0 <= i < j < |nodes| :: nodes[i] != nodes[j]
  }

  predicate DistinctPlans(plans: seq<Plan>) {
    forall i, j | 0 <= i < j < |plans| :: plans[i] != plans[j]
  }

  /** The inner search of the plan pass: the last node above and to the left of `plan`. */
  method FindPlanHost(nodes: seq<Node>, plan: Plan) returns (h: Option<nat>)
    ensures h == LastEnclosing(NodePositions(nodes), Pos(plan.Indent, plan.Offset), |nodes|)
  {
    ghost var ns := NodePositions(nodes);
    var p := |nodes|;
    while p > 0
      invariant 0 <= p <= |nodes|
      invariant LastEnclosing(ns, Pos(plan.Indent, plan.Offset), |nodes|) == LastEnclosing(ns, Pos(plan.Indent, plan.Offset), p)
    {
      p := p - 1;
      if plan.Indent > nodes[p].Indent && plan.Offset > nodes[p].Offset {
        return Some(p);
      }
    }
    return None;
  }

  /** The two inner searches of the node pass for node `i`, the plan search stopping at plan `lo`. */
  method FindTarget(nodes: seq<Node>, plans: seq<Plan>, i: nat, lo: nat) returns (t: Attach)
    requires i < |nodes|
    ensures t == Target(NodePositions(nodes), PlanPositions(plans), i, lo)
    ensures (t.ToPlan? ==> t.plan == 0 || t.plan < |plans|) && (t.ToNode? ==> t.node < i)
  {
    ghost var ns, ps := NodePositions(nodes), PlanPositions(plans);
    var node := nodes[i];
    var q := |plans|;
    while q > lo
      invariant 0 <= q <= |plans|
      invariant LastHeaded(ps, ns[i], lo, |plans|) == LastHeaded(ps, ns[i], lo, q)
    {
      q := q - 1;
      if node.Indent - 2 == plans[q].Indent && node.Offset - 1 == plans[q].Offset {
        return ToPlan(q);
      }
    }
    var p := i;
    while p > 0
      invariant 0 <= p <= i
      invariant LastShallower(ns, ns[i], i) == LastShallower(ns, ns[i], p)
    {
      p := p - 1;
      if node.Indent > nodes[p].Indent {
        return ToNode(p);
      }
    }
    return ToPlan(0);
  }

  /** Every node's SubPlans, in node order. */
  function SubPlansOf(nodes: seq<Node>): (r: seq<seq<Plan>>)
    reads nodes`SubPlans
    ensures |r| == |nodes| && forall p | 0 <= p < |nodes| :: r[p] == nodes[p].SubPlans
  {
    if |nodes| == 0 then [] else SubPlansOf(nodes[..|nodes| - 1]) + [nodes[|nodes| - 1].SubPlans]
  }

  /** Every node's SubNodes, in node order. */
  function SubNodesOf(nodes: seq<Node>): (r: seq<seq<Node>>)
    reads nodes`SubNodes
    ensures |r| == |nodes| && forall p | 0 <= p < |nodes| :: r[p] == nodes[p].SubNodes
  {
    if |nodes| == 0 then [] else SubNodesOf(nodes[..|nodes| - 1]) + [nodes[|nodes| - 1].SubNodes]
  }

  /** The lists `lists` with `x` put in front of the one `at` names, if any. */
  function PrependAt<T>(lists: seq<seq<T>>, at: Option<nat>, x: T): (r: seq<seq<T>>)
    ensures |r| == |lists|
    ensures forall p | 0 <= p < |lists| :: r[p] == if at == Some(p) then [x] + lists[p] else lists[p]
  {
    seq(|lists|, p requires 0 <= p < |lists| => if at == Some(p) then [x] + lists[p] else lists[p])
  }

  /** The SubPlans once the plan pass has handled plans `from` onwards, starting from `start`. */
  function WithSubPlans(start: seq<seq<Plan>>, plans: seq<Plan>, hs: seq<Option<nat>>, from: nat): (r: seq<seq<Plan>>)
    requires from <= |hs| == |plans|
    ensures |r| == |start|
    decreases |hs| - from
  {
    if from == |hs| then start else PrependAt(WithSubPlans(start, plans, hs, from + 1), hs[from], plans[from])
  }

  /** The SubNodes once the node pass has handled nodes `from` onwards, starting from `start`. */
  function WithSubNodes(start: seq<seq<Node>>, nodes: seq<Node>, ts: seq<Attach>, from: nat): (r: seq<seq<Node>>)
    requires from <= |ts| == |nodes|
    ensures |r| == |start|
    decreases |ts| - from
  {
    if from == |ts| then start
    else if ts[from].ToNode? then PrependAt(WithSubNodes(start, nodes, ts, from + 1), Some(ts[from].node), nodes[from])
    else WithSubNodes(start, nodes, ts, from + 1)
  }

  /** The plans' top nodes once the node pass has handled nodes `from` onwards, starting from `start`. */
  function WithTopNodes(start: seq<Node>, nodes: seq<Node>, ts: seq<Attach>, from: nat): (r: seq<Node>)
    requires from <= |ts| == |nodes|
    ensures |r| == |start|
    decreases |ts| - from
  {
    if from == |ts| then start
    else if ts[from].ToPlan? && ts[from].plan < |start| then WithTopNodes(start, nodes, ts, from + 1)[ts[from].plan := nodes[from]]
    else WithTopNodes(start, nodes, ts, from + 1)
  }

  /** The plan pass puts in front of each node's SubPlans the plans it hosts, in text order. */
  lemma {:induction false} SubPlansCollected(start: seq<seq<Plan>>, plans: seq<Plan>, hs: seq<Option<nat>>, from: nat, p: nat)
    requires from <= |hs| == |plans| && p < |start|
    ensures WithSubPlans(start, plans, hs, from)[p] == Collect(plans, hs, Some(p), from) + start[p]
    decreases |hs| - from
  {
    if from == |hs| {
      assert [] + start[p] == start[p];
    } else {
      SubPlansCollected(start, plans, hs, from + 1, p);
      PrependedAt(WithSubPlans(start, plans, hs, from + 1), hs[from], plans[from], p,
                  Collect(plans, hs, Some(p), from + 1), start[p]);
    }
  }

  /** One more object put in front of list `p`, whose contents are `rest + tail`. */
  lemma PrependedAt<T>(lists: seq<seq<T>>, at: Option<nat>, x: T, p: nat, rest: seq<T>, tail: seq<T>)
    requires p < |lists| && lists[p] == rest + tail
    ensures PrependAt(lists, at, x)[p] == ((if at == Some(p) then [x] else []) + rest) + tail
  {
    if at != Some(p) {
      assert [] + rest == rest;
    }
  }

  /** The node pass puts in front of each node's SubNodes its children, in text order. */
  lemma {:induction false} SubNodesCollected(start: seq<seq<Node>>, nodes: seq<Node>, ts: seq<Attach>, from: nat, p: nat)
    requires from <= |ts| == |nodes| && p < |start|
    ensures WithSubNodes(start, nodes, ts, from)[p] == Collect(nodes, ts, ToNode(p), from) + start[p]
    decreases |ts| - from
  {
    if from == |ts| {
      assert [] + start[p] == start[p];
    } else {
      SubNodesCollected(start, nodes, ts, from + 1, p);
      var before := WithSubNodes(start, nodes, ts, from + 1);
      var at := if ts[from].ToNode? then Some(ts[from].node) else None;
      PrependedAt(before, at, nodes[from], p, Collect(nodes, ts, ToNode(p), from + 1), start[p]);
      assert WithSubNodes(start, nodes, ts, from)[p] == PrependAt(before, at, nodes[from])[p];
    }
  }

  /** The node pass leaves as a plan's top node the first node that goes to that plan, if any. */
  lemma {:induction false} TopNodeIsFirst(start: seq<Node>, nodes: seq<Node>, ts: seq<Attach>, from: nat, q: nat)
    requires from <= |ts| == |nodes| && q < |start|
    ensures WithTopNodes(start, nodes, ts, from)[q] ==
      match FirstIndexOf(ts, ToPlan(q), from) case Some(j) => nodes[j] case None => start[q]
    decreases |ts| - from
  {
    if from < |ts| {
      TopNodeIsFirst(start, nodes, ts, from + 1, q);
    }
  }

  /** The plan pass: each plan, walked backwards, is put in front of its host's SubPlans. */
  method LinkPlans(nodes: seq<Node>, plans: seq<Plan>)
    requires DistinctNodes(nodes)
    modifies nodes`SubPlans
    ensures SubPlansOf(nodes) ==
      WithSubPlans(old(SubPlansOf(nodes)), plans, Hosts(NodePositions(nodes), PlanPositions(plans)), 0)
    ensures SubNodesOf(nodes) == old(SubNodesOf(nodes)) && TopNodes(plans) == old(TopNodes(plans))
  {
    ghost var start := SubPlansOf(nodes);
    ghost var hs := Hosts(NodePositions(nodes), PlanPositions(plans));
    var i := |plans|;
    while i > 0
      invariant 0 <= i <= |plans|
      invariant SubPlansOf(nodes) == WithSubPlans(start, plans, hs, i)
      invariant SubNodesOf(nodes) == old(SubNodesOf(nodes)) && TopNodes(plans) == old(TopNodes(plans))
    {
      i := i - 1;
      var host := FindPlanHost(nodes, plans[i]);
      assert host == hs[i];
      PrependSubPlan(nodes, plans, host, plans[i]);
    }
  }

  /** Puts `plan` in front of the SubPlans of the node `host` names, if any. */
  method PrependSubPlan(nodes: seq<Node>, plans: seq<Plan>, host: Option<nat>, plan: Plan)
    requires DistinctNodes(nodes) && (host.Some? ==> host.value < |nodes|)
    modifies nodes`SubPlans
    ensures SubPlansOf(nodes) == PrependAt(old(SubPlansOf(nodes)), host, plan)
    ensures SubNodesOf(nodes) == old(SubNodesOf(nodes)) && TopNodes(plans) == old(TopNodes(plans))
  {
    if host.Some? {
      var n := nodes[host.value];
      ghost var before := SubPlansOf(nodes);
      n.SubPlans := [plan] + n.SubPlans;
      forall p | 0 <= p < |nodes| && p != host.value
        ensures nodes[p].SubPlans == before[p]
      {
        assert nodes[p] != n;
      }
    }
  }

  /** Puts `node` in front of the SubNodes of `nodes[p]`; the plans' top nodes stay. */
  method PrependSubNode(nodes: seq<Node>, plans: seq<Plan>, p: nat, node: Node)
    requires DistinctNodes(nodes) && p < |nodes|
    modifies nodes`SubNodes
    ensures SubNodesOf(nodes) == PrependAt(old(SubNodesOf(nodes)), Some(p), node)
    ensures TopNodes(plans) == old(TopNodes(plans)) && SubPlansOf(nodes) == old(SubPlansOf(nodes))
  {
    var n := nodes[p];
    ghost var before := SubNodesOf(nodes);
    n.SubNodes := [node] + n.SubNodes;
    forall k | 0 <= k < |nodes| && k != p
      ensures nodes[k].SubNodes == before[k]
    {
      assert nodes[k] != n;
    }
  }

  /** Makes `node` the top node of `plans[q]`; the nodes' SubNodes stay. */
  method SetTopNode(nodes: seq<Node>, plans: seq<Plan>, q: nat, node: Node)
    requires DistinctPlans(plans) && q < |plans|
    modifies plans`TopNode
    ensures TopNodes(plans) == old(TopNodes(plans))[q := node]
    ensures SubNodesOf(nodes) == old(SubNodesOf(nodes)) && SubPlansOf(nodes) == old(SubPlansOf(nodes))
  {
    var pl := plans[q];
    ghost var before := TopNodes(plans);
    pl.TopNode := node;
    forall k | 0 <= k < |plans| && k != q
      ensures plans[k].TopNode == before[k]
    {
      assert plans[k] != pl;
    }
  }

  /**
   * The node pass: each node, walked backwards, becomes the top node of its plan or is put
   * in front of its parent's SubNodes; the plan search stops at plan `lo`.
   */
  method LinkNodes(nodes: seq<Node>, plans: seq<Plan>, lo: nat)
    requires DistinctNodes(nodes) && DistinctPlans(plans)
    requires |nodes| > 0 ==> |plans| > 0
    modifies nodes`SubNodes, plans`TopNode
    ensures SubNodesOf(nodes) ==
      WithSubNodes(old(SubNodesOf(nodes)), nodes, Targets(NodePositions(nodes), PlanPositions(plans), lo), 0)
    ensures TopNodes(plans) ==
      WithTopNodes(old(TopNodes(plans)), nodes, Targets(NodePositions(nodes), PlanPositions(plans), lo), 0)
    ensures SubPlansOf(nodes) == old(SubPlansOf(nodes))
  {
    ghost var subs, tops := SubNodesOf(nodes), TopNodes(plans);
    ghost var ts := Targets(NodePositions(nodes), PlanPositions(plans), lo);
    var i := |nodes|;
    while i > 0
      invariant 0 <= i <= |nodes|
      invariant SubNodesOf(nodes) == WithSubNodes(subs, nodes, ts, i)
      invariant TopNodes(plans) == WithTopNodes(tops, nodes, ts, i)
      invariant SubPlansOf(nodes) == old(SubPlansOf(nodes))
    {
      i := i - 1;
      var t := FindTarget(nodes, plans, i, lo);
      PlaceNode(nodes, plans, i, t, subs, tops, ts);
    }
  }

  /** One turn of the node pass: node `i` goes where `t`, its entry in `ts`, says. */
  method PlaceNode(nodes: seq<Node>, plans: seq<Plan>, i: nat, t: Attach,
                   ghost subs: seq<seq<Node>>, ghost tops: seq<Node>, ghost ts: seq<Attach>)
    requires DistinctNodes(nodes) && DistinctPlans(plans)
    requires i < |ts| == |nodes| && t == ts[i] && |tops| == |plans|
    requires (t.ToPlan? ==> t.plan < |plans|) && (t.ToNode? ==> t.node < |nodes|)
    requires SubNodesOf(nodes) == WithSubNodes(subs, nodes, ts, i + 1)
    requires TopNodes(plans) == WithTopNodes(tops, nodes, ts, i + 1)
    modifies nodes`SubNodes, plans`TopNode
    ensures SubNodesOf(nodes) == WithSubNodes(subs, nodes, ts, i)
    ensures TopNodes(plans) == WithTopNodes(tops, nodes, ts, i)
    ensures SubPlansOf(nodes) == old(SubPlansOf(nodes))
  {
    match t
    case ToPlan(q) =>
      assert WithTopNodes(tops, nodes, ts, i) == WithTopNodes(tops, nodes, ts, i + 1)[q := nodes[i]];
      assert WithSubNodes(subs, nodes, ts, i) == WithSubNodes(subs, nodes, ts, i + 1);
      SetTopNode(nodes, plans, q, nodes[i]);
    case ToNode(p) =>
      assert WithSubNodes(subs, nodes, ts, i) == PrependAt(WithSubNodes(subs, nodes, ts, i + 1), Some(p), nodes[i]);
      assert WithTopNodes(tops, nodes, ts, i) == WithTopNodes(tops, nodes, ts, i + 1);
      PrependSubNode(nodes, plans, p, nodes[i]);
  }

  /** Where the passes put the nodes, given only where each node goes. */
  lemma LinkedByTargets(nodes: seq<Node>, ts: seq<Attach>, subs: seq<seq<Node>>, tops: seq<Node>)
    requires |ts| == |nodes| == |subs| && |tops| > 0
    requires FirstIndexOf(ts, ToPlan(0), 0) == Some(0)
    requires forall i | 1 <= i < |ts| ::
      && (ts[i].ToNode? ==> ts[i].node < i)
      && (ts[i].ToPlan? ==> 1 <= ts[i].plan < |tops| && FirstIndexOf(ts, ts[i], 0) == Some(i))
    ensures WithTopNodes(tops, nodes, ts, 0)[0] == nodes[0]
    ensures forall i | 1 <= i < |ts| ::
      && (ts[i].ToNode? ==> ts[i].node < i && nodes[i] in WithSubNodes(subs, nodes, ts, 0)[ts[i].node])
      && (ts[i].ToPlan? ==> 1 <= ts[i].plan < |tops| && WithTopNodes(tops, nodes, ts, 0)[ts[i].plan] == nodes[i])
  {
    TopNodeIsFirst(tops, nodes, ts, 0, 0);
    forall i | 1 <= i < |ts|
      ensures ts[i].ToNode? ==> ts[i].node < i && nodes[i] in WithSubNodes(subs, nodes, ts, 0)[ts[i].node]
      ensures ts[i].ToPlan? ==> 1 <= ts[i].plan < |tops| && WithTopNodes(tops, nodes, ts, 0)[ts[i].plan] == nodes[i]
    {
      match ts[i]
      case ToNode(p) =>
        CollectHas(nodes, ts, ToNode(p), 0, i);
        SubNodesCollected(subs, nodes, ts, 0, p);
      case ToPlan(q) =>
        TopNodeIsFirst(tops, nodes, ts, 0, q);
    }
  }

  /** Where the SubPlan-only search sends the nodes of a well-formed plan, by index. */
  lemma TargetsPlaced(ns: seq<Pos>, ps: seq<Pos>)
    requires WellFormed(ns, ps)
    ensures var ts := Targets(ns, ps, FirstPlanSearched);
      && FirstIndexOf(ts, ToPlan(0), 0) == Some(0)
      && forall i | 1 <= i < |ts| ::
        && (ts[i].ToNode? ==> ts[i].node < i)
        && (ts[i].ToPlan? ==> 1 <= ts[i].plan < |ps| && FirstIndexOf(ts, ts[i], 0) == Some(i))
  {
    var ts := Targets(ns, ps, FirstPlanSearched);
    EveryNodePlaced(ns, ps);
    assert Placed(ns, ps, 0, FirstPlanSearched);
    forall i | 1 <= i < |ts|
      ensures ts[i].ToNode? ==> ts[i].node < i
      ensures ts[i].ToPlan? ==> 1 <= ts[i].plan < |ps| && FirstIndexOf(ts, ts[i], 0) == Some(i)
    {
      assert Placed(ns, ps, i, FirstPlanSearched);
    }
  }

  /**
   * After both passes every node is in the tree: the first node is the top node of the main
   * plan, and every other node is among the SubNodes of an earlier node or is the top node
   * of the SubPlan it heads.
   */
  lemma EveryNodeLinked(nodes: seq<Node>, ns: seq<Pos>, ps: seq<Pos>, subs: seq<seq<Node>>, tops: seq<Node>)
    requires WellFormed(ns, ps) && |nodes| == |ns| == |subs| && |tops| == |ps|
    ensures var ts := Targets(ns, ps, FirstPlanSearched);
      && WithTopNodes(tops, nodes, ts, 0)[0] == nodes[0]
      && forall i | 1 <= i < |nodes| ::
        && (ts[i].ToNode? ==> ts[i].node < i && nodes[i] in WithSubNodes(subs, nodes, ts, 0)[ts[i].node])
        && (ts[i].ToPlan? ==> 1 <= ts[i].plan < |ps| && WithTopNodes(tops, nodes, ts, 0)[ts[i].plan] == nodes[i])
  {
    TargetsPlaced(ns, ps);
    LinkedByTargets(nodes, Targets(ns, ps, FirstPlanSearched), subs, tops);
  }

  /**
   * The tree as BuildTree promises it: the first node heads the main plan, and every other
   * node is among the SubNodes of an earlier node or heads a SubPlan.
   */
  predicate TreeLinked(nodes: seq<Node>, plans: seq<Plan>)
    reads nodes`SubNodes, plans`TopNode
  {
    && |nodes| > 0 && |plans| > 0 && plans[0].TopNode == nodes[0]
    && forall i | 1 <= i < |nodes| ::
      || (exists p | 0 <= p < i :: nodes[i] in nodes[p].SubNodes)
      || (exists q | 1 <= q < |plans| :: plans[q].TopNode == nodes[i])
  }

  /** Both passes of BuildTree over a well-formed text leave every node linked. */
  lemma {:induction false} BuiltTreeLinked(nodes: seq<Node>, plans: seq<Plan>, subs: seq<seq<Node>>, tops: seq<Node>)
    requires WellFormed(NodePositions(nodes), PlanPositions(plans)) && |subs| == |nodes| && |tops| == |plans|
    requires SubNodesOf(nodes) == WithSubNodes(subs, nodes, Targets(NodePositions(nodes), PlanPositions(plans), FirstPlanSearched), 0)
    requires TopNodes(plans) == WithTopNodes(tops, nodes, Targets(NodePositions(nodes), PlanPositions(plans), FirstPlanSearched), 0)
    ensures TreeLinked(nodes, plans)
  {
    var ns, ps := NodePositions(nodes), PlanPositions(plans);
    var ts := Targets(ns, ps, FirstPlanSearched);
    EveryNodeLinked(nodes, ns, ps, subs, tops);
    forall i | 1 <= i < |nodes|
      ensures || (exists p | 0 <= p < i :: nodes[i] in nodes[p].SubNodes)
              || (exists q | 1 <= q < |plans| :: plans[q].TopNode == nodes[i])
    {
      match ts[i]
      case ToNode(p) =>
        assert nodes[i] in nodes[p].SubNodes;
      case ToPlan(q) =>
        assert plans[q].TopNode == nodes[i];
    }
  }

  /**
   * BuildTree over the node and plan objects: the SubPlans pass, then the node pass with the
   * plan search stopping at plan `lo`. Over a well-formed text every node ends up linked
   * when the search skips the top plan, or when no node heads the top plan anyway.
   */
  method BuildLinks(nodes: seq<Node>, plans: seq<Plan>, lo: nat)
    requires DistinctNodes(nodes) && DistinctPlans(plans) && (|nodes| > 0 ==> |plans| > 0)
    requires lo == FirstPlanSearchedAsWritten || lo == FirstPlanSearched
    modifies nodes`SubPlans, nodes`SubNodes, plans`TopNode
    ensures SubPlansOf(nodes) ==
      WithSubPlans(old(SubPlansOf(nodes)), plans, Hosts(NodePositions(nodes), PlanPositions(plans)), 0)
    ensures SubNodesOf(nodes) ==
      WithSubNodes(old(SubNodesOf(nodes)), nodes, Targets(NodePositions(nodes), PlanPositions(plans), lo), 0)
    ensures TopNodes(plans) ==
      WithTopNodes(old(TopNodes(plans)), nodes, Targets(NodePositions(nodes), PlanPositions(plans), lo), 0)
    ensures (WellFormed(NodePositions(nodes), PlanPositions(plans)) &&
             (lo == FirstPlanSearched || TopPlanUnheaded(NodePositions(nodes), PlanPositions(plans)))) ==>
      TreeLinked(nodes, plans)
  {
    ghost var subs, tops := SubNodesOf(nodes), TopNodes(plans);
    LinkPlans(nodes, plans);
    LinkNodes(nodes, plans, lo);
    ghost var ns, ps := NodePositions(nodes), PlanPositions(plans);
    if WellFormed(ns, ps) && (lo == FirstPlanSearched || TopPlanUnheaded(ns, ps)) {
      if lo != FirstPlanSearched {
        SearchStartIrrelevant(ns, ps);
      }
      BuiltTreeLinked(nodes, plans, subs, tops);
    }
  }
}
