/**
 * The line shapes the plan parser recognises (plan/pattern.go and the expressions compiled
 * inline in plan/plan.go and plan/checker.go), each written as a hand-made matcher.
 *
 * Most shapes are a sequence of literal texts and character runs (`\d+`, `\s+`, `\S+`,
 * `[0-9.-]{1,}`) in which every run is followed by a literal or a run that cannot start with
 * a character of its class; for such shapes Go's leftmost-first backtracking search finds
 * exactly the leftmost position where the maximal-run reading succeeds, which is what `Find`
 * computes. The shapes with a greedy `(.*)` (NODE, SLICE, partitions scanned, the index-scan
 * object) have their own searches that try the longest `(.*)` first, as Go does.
 */
module Pattern {
  import opened Wrappers
  import opened GoStrings

  // ---------------------------------------------------------------------------------------
  // Literal-and-run shapes
  // ---------------------------------------------------------------------------------------

  /** `\d`, `\s` (RE2: tab, newline, form feed, carriage return, space), `\S`, `[0-9.-]`. */
  datatype CharClass = Digit | Blank | NonBlank | Amount

  predicate IsBlank(c: char) {
    c == '\t' || c == '\n' || c == '\U{0C}' || c == '\r' || c == ' '
  }

  predicate InClass(c: char, k: CharClass) {
    match k
    case Digit => IsDigit(c)
    case Blank => IsBlank(c)
    case NonBlank => !IsBlank(c)
    case Amount => IsDigit(c) || c == '.' || c == '-'
  }

  /** A literal text, or a captured run of one or more characters of a class. */
  datatype Piece = Lit(text: string) | Run(cls: CharClass)

  type Shape = seq<Piece>

  function RunCount(shape: Shape): nat {
    if |shape| == 0 then 0 else (if shape[0].Run? then 1 else 0) + RunCount(shape[1..])
  }

  /** The text a shape stands for once its runs are replaced by `caps`. */
  function Render(shape: Shape, caps: seq<string>): string
    requires |caps| == RunCount(shape)
  {
    if |shape| == 0 then ""
    else match shape[0]
      case Lit(t) => t + Render(shape[1..], caps)
      case Run(_) => caps[0] + Render(shape[1..], caps[1..])
  }

  /** Every capture is non-empty and made of its run's class. */
  predicate CapturesFit(shape: Shape, caps: seq<string>)
    requires |caps| == RunCount(shape)
  {
    if |shape| == 0 then true
    else match shape[0]
      case Lit(_) => CapturesFit(shape[1..], caps)
      case Run(k) =>
        |caps[0]| > 0 && (forall j | 0 <= j < |caps[0]| :: InClass(caps[0][j], k))
        && CapturesFit(shape[1..], caps[1..])
  }

  /** End of the maximal run of class `k` that starts at `i`. */
  function RunEnd(s: string, i: nat, k: CharClass): (e: nat)
    requires i <= |s|
    decreases |s| - i
    ensures i <= e <= |s|
    ensures forall j | i <= j < e :: InClass(s[j], k)
    ensures e < |s| ==> !InClass(s[e], k)
  {
    if i == |s| || !InClass(s[i], k) then i else RunEnd(s, i + 1, k)
  }

  /** Two texts found side by side form their concatenation. */
  lemma HasAtConcat(s: string, i: int, a: string, b: string)
    requires HasAt(s, i, a) && HasAt(s, i + |a|, b)
    ensures HasAt(s, i, a + b)
  {
    assert s[i..i + |a| + |b|] == s[i..i + |a|] + s[i + |a|..i + |a| + |b|];
  }

  /** The shape read at position `i`, each run taken maximal and non-empty. */
  function MatchAt(s: string, i: nat, shape: Shape): (r: Option<seq<string>>)
    requires i <= |s|
    decreases |shape|
    ensures r.Some? ==> |r.value| == RunCount(shape) && CapturesFit(shape, r.value)
    ensures r.Some? ==> HasAt(s, i, Render(shape, r.value))
  {
    if |shape| == 0 then Some([])
    else match shape[0]
      case Lit(t) =>
        if !HasAt(s, i, t) then None
        else
          var r := MatchAt(s, i + |t|, shape[1..]);
          if r.None? then None
          else
            HasAtConcat(s, i, t, Render(shape[1..], r.value));
            r
      case Run(k) =>
        var e := RunEnd(s, i, k);
        if e == i then None
        else
          var rest := MatchAt(s, e, shape[1..]);
          if rest.None? then None
          else
            var caps := [s[i..e]] + rest.value;
            assert caps[1..] == rest.value;
            HasAtConcat(s, i, s[i..e], Render(shape[1..], rest.value));
            Some(caps)
  }

  /** Leftmost position at or after `from` where the shape matches. */
  function FindFrom(s: string, shape: Shape, from: nat): (r: Option<seq<string>>)
    decreases |s| + 1 - from
    ensures r.Some? ==> |r.value| == RunCount(shape) && CapturesFit(shape, r.value)
    ensures r.Some? ==> exists i :: HasAt(s, i, Render(shape, r.value))
  {
    if from > |s| then None
    else
      var r := MatchAt(s, from, shape);
      if r.Some? then r else FindFrom(s, shape, from + 1)
  }

  /** Go's `FindStringSubmatch` for a literal-and-run shape: the captures, or None. */
  function Find(s: string, shape: Shape): (r: Option<seq<string>>)
    ensures r.Some? ==> |r.value| == RunCount(shape) && CapturesFit(shape, r.value)
    ensures r.Some? ==> exists i :: HasAt(s, i, Render(shape, r.value))
  {
    FindFrom(s, shape, 0)
  }

  // ---------------------------------------------------------------------------------------
  // The catalog of plan/pattern.go
  // ---------------------------------------------------------------------------------------

  const SubPlanMarker := " SubPlan "
  const SliceStatsMarker := " Slice statistics:"
  const StatementStatsMarker := " Statement statistics:"
  const SettingsMarker := " Settings: "
  const OptimizerMarker := " Optimizer status: "
  const RuntimeMarker := " Total runtime: "

  /** STATEMENTSTATS_USED: `Memory used: ([0-9.-]{1,})K bytes`. */
  const MemoryUsedShape: Shape := [Lit("Memory used: "), Run(Amount), Lit("K bytes")]
  /** STATEMENTSTATS_WANTED: `Memory wanted: ([0-9.-]{1,})K bytes`. */
  const MemoryWantedShape: Shape := [Lit("Memory wanted: "), Run(Amount), Lit("K bytes")]

  /** A literal, one run and a literal: the capture fits its class and sits between the texts. */
  lemma RenderThree(a: string, k: CharClass, b: string, c: string)
    ensures RunCount([Lit(a), Run(k), Lit(b)]) == 1
    ensures Render([Lit(a), Run(k), Lit(b)], [c]) == a + c + b
    ensures CapturesFit([Lit(a), Run(k), Lit(b)], [c]) <==> |c| > 0 && forall j | 0 <= j < |c| :: InClass(c[j], k)
  {
    var shape := [Lit(a), Run(k), Lit(b)];
    var tail := [Lit(b)];
    assert shape[1..] == [Run(k), Lit(b)];
    assert shape[1..][1..] == tail;
    assert tail[1..] == [];
    assert [c][1..] == [];
    assert RunCount(tail) == 0;
    assert RunCount(shape[1..]) == 1;
    assert Render(tail, []) == b;
    assert Render(shape[1..], [c]) == c + b;
    assert CapturesFit(tail, []);
  }

  /** The memory amount text captured by STATEMENTSTATS_USED or STATEMENTSTATS_WANTED. */
  function MemoryAmount(line: string, shape: Shape): (r: Option<string>)
    requires shape == MemoryUsedShape || shape == MemoryWantedShape
    ensures r.Some? ==> |r.value| > 0
    ensures r.Some? ==> forall j | 0 <= j < |r.value| :: IsDigit(r.value[j]) || r.value[j] == '.' || r.value[j] == '-'
    ensures r.Some? ==> Contains(line, shape[0].text + r.value + "K bytes")
  {
    var m := Find(line, shape);
    if m.None? then None
    else
      var caps := m.value;
      var prefix := shape[0].text;
      assert shape == [Lit(prefix), Run(Amount), Lit("K bytes")];
      RenderThree(prefix, Amount, "K bytes", caps[0]);
      assert |caps| == 1 && caps == [caps[0]];
      var i :| HasAt(line, i, Render(shape, caps));
      ContainsAt(line, Render(shape, caps), i);
      Some(caps[0])
  }

  /**
   * SUBPLAN and the section markers all begin with a space: a line only shows one when the
   * label text stands at column one or later, so a label at column 0 is not recognised.
   */
  lemma MarkerNeedsLeadingSpace(line: string, name: string)
    requires Contains(line, " " + name)
    ensures exists i :: 1 <= i && HasAt(line, i, name)
  {
    var i := Index(line, " " + name);
    assert line[i + 1..i + 1 + |name|] == (" " + name)[1..];
    assert HasAt(line, i + 1, name);
  }

  // ---------------------------------------------------------------------------------------
  // NODE: `(.*) \((cost=(.*)\.\.(.*) ){0,1}rows=(.*) width=(.*)\)`
  // ---------------------------------------------------------------------------------------

  /**
   * The groups of NODE that the parser reads. `costed` tells whether the optional cost group
   * took part; when it did not, the startup and total texts are empty, as Go reports them.
   */
  datatype NodeGroups = NodeGroups(prefix: string, costed: bool, startup: string, total: string,
                                   rows: string, width: string)

  function RowsText(rows: string, width: string): string {
    "rows=" + rows + " width=" + width + ")"
  }

  function CostText(startup: string, total: string): string {
    "cost=" + startup + ".." + total + " "
  }

  /** The text a NODE match covers, from the start of the line. */
  function NodeText(g: NodeGroups): string {
    g.prefix + " (" + (if g.costed then CostText(g.startup, g.total) else "") + RowsText(g.rows, g.width)
  }

  /** `x` found at `j` and `y` right after it: the line starts with everything up to `y`'s end. */
  lemma StartsWithAfter(s: string, j: int, x: string, y: string)
    requires HasAt(s, j, x) && StartsWith(s[j + |x|..], y)
    ensures StartsWith(s, s[..j] + x + y)
  {
    assert s[0..j + |x| + |y|] == s[..j] + s[j..j + |x|] + s[j + |x|..][0..|y|];
  }

  /** `rows=(.*) width=(.*)\)` at the start of `t`: the last " width=" before the last ")". */
  function RowsWidthTail(t: string): Option<(string, string)> {
    if !StartsWith(t, "rows=") then None
    else
      var w := t[5..];
      var close := LastIndexBefore(w, ")", |w|);
      var c := LastIndexBefore(w, " width=", close);
      if close < 0 || c < 0 then None else Some((w[..c], w[c + 7..close]))
  }

  /** Where the second cost group can end: a space followed by the rows tail. */
  predicate CostSecondAt(v: string, b: int) {
    0 <= b < |v| && v[b] == ' ' && RowsWidthTail(v[b + 1..]).Some?
  }

  /** `(.*) ` followed by the rows tail, trying the longest `(.*)` (ending at `b`) first. */
  function CostSecond(v: string, b: int): Option<(string, string, string)>
    requires b < |v|
    decreases b + 1
  {
    if b < 0 then None
    else if CostSecondAt(v, b) then
      var rw := RowsWidthTail(v[b + 1..]).value;
      Some((v[..b], rw.0, rw.1))
    else CostSecond(v, b - 1)
  }

  /** Where the first cost group can end: ".." followed by the rest of the cost group. */
  predicate CostFirstAt(u: string, a: int) {
    0 <= a && HasAt(u, a, "..") && CostSecond(u[a + 2..], |u| - a - 3).Some?
  }

  /** `(.*)\.\.` followed by the rest of the cost group, longest first group first. */
  function CostFirst(u: string, a: int): Option<(string, string, string, string)>
    requires a <= |u|
    decreases a + 1
  {
    if a < 0 then None
    else if CostFirstAt(u, a) then
      var r := CostSecond(u[a + 2..], |u| - a - 3).value;
      Some((u[..a], r.0, r.1, r.2))
    else CostFirst(u, a - 1)
  }

  /** `cost=(.*)\.\.(.*) rows=(.*) width=(.*)\)` at the start of `t`. */
  function CostTail(t: string): Option<(string, string, string, string)> {
    if !StartsWith(t, "cost=") then None else CostFirst(t[5..], |t| - 5)
  }

  /** Where the group before " (" can end: either form of the parenthesised tail follows. */
  predicate NodeHit(s: string, j: int) {
    0 <= j && HasAt(s, j, " (") && (CostTail(s[j + 2..]).Some? || RowsWidthTail(s[j + 2..]).Some?)
  }

  /** NODE with the group before " (" ending at `j` or earlier; the optional cost group is tried first. */
  function NodeAt(s: string, j: int): Option<NodeGroups>
    requires j <= |s|
    decreases j + 1
  {
    if j < 0 then None
    else if NodeHit(s, j) then
      var tail := s[j + 2..];
      var c := CostTail(tail);
      if c.Some? then Some(NodeGroups(s[..j], true, c.value.0, c.value.1, c.value.2, c.value.3))
      else
        var rw := RowsWidthTail(tail).value;
        Some(NodeGroups(s[..j], false, "", "", rw.0, rw.1))
    else NodeAt(s, j - 1)
  }

  /** NODE's `FindStringSubmatch`: the groups, or None when the line is not a node line. */
  function NodeShape(line: string): Option<NodeGroups> {
    NodeAt(line, |line|)
  }

  // Every match is a real one: the line starts with the text the groups stand for.

  lemma RowsWidthTailSound(t: string)
    requires RowsWidthTail(t).Some?
    ensures StartsWith(t, RowsText(RowsWidthTail(t).value.0, RowsWidthTail(t).value.1))
  {
    var w := t[5..];
    var close := LastIndexBefore(w, ")", |w|);
    var c := LastIndexBefore(w, " width=", close);
    RowsTextAt(t, c, close);
  }

  lemma RowsTextAt(t: string, c: int, close: int)
    requires StartsWith(t, "rows=") && HasAt(t[5..], c, " width=") && HasAt(t[5..], close, ")")
    requires c + 7 <= close
    ensures StartsWith(t, RowsText(t[5..][..c], t[5..][c + 7..close]))
  {
    var w := t[5..];
    assert t[0..close + 6] == t[0..5] + w[..c] + w[c..c + 7] + w[c + 7..close] + w[close..close + 1];
  }

  lemma {:induction false} CostSecondSound(v: string, b: int)
    requires b < |v| && CostSecond(v, b).Some?
    ensures var r := CostSecond(v, b).value;
            StartsWith(v, r.0 + " " + RowsText(r.1, r.2))
    decreases b + 1
  {
    if CostSecondAt(v, b) {
      RowsWidthTailSound(v[b + 1..]);
      var rw := RowsWidthTail(v[b + 1..]).value;
      StartsWithAfter(v, b, " ", RowsText(rw.0, rw.1));
    } else {
      CostSecondSound(v, b - 1);
    }
  }

  lemma {:induction false} CostFirstSound(u: string, a: int)
    requires a <= |u| && CostFirst(u, a).Some?
    ensures var r := CostFirst(u, a).value;
            StartsWith(u, r.0 + ".." + r.1 + " " + RowsText(r.2, r.3))
    decreases a + 1
  {
    if CostFirstAt(u, a) {
      CostSecondSound(u[a + 2..], |u| - a - 3);
      var r := CostSecond(u[a + 2..], |u| - a - 3).value;
      JoinCostGroups(u, a, r.0, r.1, r.2);
    } else {
      CostFirstSound(u, a - 1);
    }
  }

  lemma JoinCostGroups(u: string, a: int, total: string, rows: string, width: string)
    requires HasAt(u, a, "..") && StartsWith(u[a + 2..], total + " " + RowsText(rows, width))
    ensures StartsWith(u, u[..a] + ".." + total + " " + RowsText(rows, width))
  {
    StartsWithAfter(u, a, "..", total + " " + RowsText(rows, width));
  }

  lemma CostTailSound(t: string)
    requires CostTail(t).Some?
    ensures var r := CostTail(t).value;
            StartsWith(t, CostText(r.0, r.1) + RowsText(r.2, r.3))
  {
    CostFirstSound(t[5..], |t| - 5);
    var r := CostTail(t).value;
    StartsWithAfter(t, 0, "cost=", r.0 + ".." + r.1 + " " + RowsText(r.2, r.3));
  }

  lemma NodeTextAt(s: string, j: int, g: NodeGroups)
    requires HasAt(s, j, " (") && g.prefix == s[..j]
    requires StartsWith(s[j + 2..], (if g.costed then CostText(g.startup, g.total) else "") + RowsText(g.rows, g.width))
    ensures StartsWith(s, NodeText(g))
  {
    var y := (if g.costed then CostText(g.startup, g.total) else "") + RowsText(g.rows, g.width);
    assert NodeText(g) == s[..j] + " (" + y;
    StartsWithAfter(s, j, " (", y);
  }

  lemma {:induction false} NodeAtSound(s: string, j: int)
    requires j <= |s| && NodeAt(s, j).Some?
    ensures StartsWith(s, NodeText(NodeAt(s, j).value))
    ensures !NodeAt(s, j).value.costed ==> NodeAt(s, j).value.startup == "" && NodeAt(s, j).value.total == ""
    decreases j + 1
  {
    if NodeHit(s, j) {
      var g := NodeAt(s, j).value;
      if CostTail(s[j + 2..]).Some? {
        CostTailSound(s[j + 2..]);
      } else {
        RowsWidthTailSound(s[j + 2..]);
      }
      NodeTextAt(s, j, g);
    } else {
      NodeAtSound(s, j - 1);
    }
  }

  /**
   * A line NODE accepts starts with the operator text, " (", the cost group when present
   * and the rows tail; without a cost group the startup and total texts are empty.
   */
  lemma NodeShapeSound(line: string)
    requires NodeShape(line).Some?
    ensures StartsWith(line, NodeText(NodeShape(line).value))
    ensures !NodeShape(line).value.costed ==> NodeShape(line).value.startup == "" && NodeShape(line).value.total == ""
  {
    NodeAtSound(line, |line|);
  }

  // Searching from the right stops at the rightmost hit.

  lemma {:induction false} RowsWidthTailSome(t: string, c: int, close: int)
    requires StartsWith(t, "rows=") && HasAt(t[5..], c, " width=") && HasAt(t[5..], close, ")")
    requires c + 7 <= close
    ensures RowsWidthTail(t).Some?
  {
    var w := t[5..];
    var cl := LastIndexBefore(w, ")", |w|);
    assert cl >= close;
    assert LastIndexBefore(w, " width=", cl) >= c;
  }

  lemma {:induction false} CostSecondFrom(v: string, b0: int, b: int)
    requires 0 <= b <= b0 < |v| && CostSecondAt(v, b)
    requires forall k | b < k <= b0 :: !CostSecondAt(v, k)
    ensures CostSecond(v, b0) == CostSecond(v, b)
    decreases b0 - b
  {
    if b0 > b {
      assert !CostSecondAt(v, b0);
      CostSecondFrom(v, b0 - 1, b);
    }
  }

  lemma {:induction false} CostFirstFrom(u: string, a0: int, a: int)
    requires 0 <= a <= a0 <= |u| && CostFirstAt(u, a)
    requires forall k | a < k <= a0 :: !CostFirstAt(u, k)
    ensures CostFirst(u, a0) == CostFirst(u, a)
    decreases a0 - a
  {
    if a0 > a {
      assert !CostFirstAt(u, a0);
      CostFirstFrom(u, a0 - 1, a);
    }
  }

  lemma {:induction false} NodeAtFrom(s: string, j0: int, j: int)
    requires 0 <= j <= j0 <= |s| && NodeHit(s, j)
    requires forall k | j < k <= j0 :: !NodeHit(s, k)
    ensures NodeAt(s, j0) == NodeAt(s, j)
    decreases j0 - j
  {
    if j0 > j {
      assert !NodeHit(s, j0);
      NodeAtFrom(s, j0 - 1, j);
    }
  }

  lemma {:induction false} NodeAtNone(s: string, j0: int)
    requires j0 <= |s|
    requires forall k | 0 <= k <= j0 :: !NodeHit(s, k)
    ensures NodeAt(s, j0).None?
    decreases j0 + 1
  {
    if j0 >= 0 {
      NodeAtNone(s, j0 - 1);
    }
  }

  /** No two dots side by side. */
  predicate NoDoubleDot(x: string) {
    forall i | 0 < i < |x| :: x[i - 1] != '.' || x[i] != '.'
  }

  /** A text made of digits and single dots, not starting with a dot, as psql prints numbers. */
  predicate Number(x: string) {
    (forall i | 0 <= i < |x| :: IsDigit(x[i]) || x[i] == '.') && NoDoubleDot(x) && (|x| > 0 ==> x[0] != '.')
  }

  lemma JoinNoDoubleDot(x: string, y: string)
    requires NoDoubleDot(x) && NoDoubleDot(y)
    requires |x| > 0 && |y| > 0 ==> x[|x| - 1] != '.' || y[0] != '.'
    ensures NoDoubleDot(x + y)
  {
    var z := x + y;
    forall i | 0 < i < |z| ensures z[i - 1] != '.' || z[i] != '.' {
      if i < |x| {
        assert z[i - 1] == x[i - 1] && z[i] == x[i];
      } else if i == |x| {
        assert z[i - 1] == x[|x| - 1] && z[i] == y[0];
      } else {
        assert z[i - 1] == y[i - 1 - |x|] && z[i] == y[i - |x|];
      }
    }
  }

  /** What the rows tail holds when its two texts are numbers. */
  lemma RowsTextFacts(r: string, w: string)
    requires Number(r) && Number(w)
    ensures var rt := RowsText(r, w);
            |rt| == 13 + |r| + |w| && rt[0] == 'r' && rt[5 + |r|] == ' ' && rt[6 + |r|] == 'w'
            && (forall i | 0 <= i < |rt| && i != 5 + |r| :: rt[i] != ' ' && rt[i] != '(')
            && rt[5 + |r|] != '(' && NoDoubleDot(rt)
  {
    var rt := RowsText(r, w);
    var head := "rows=" + r;
    var tail := " width=" + w + ")";
    assert rt == head + tail;
    forall i | 0 <= i < |rt| && i != 5 + |r| ensures rt[i] != ' ' && rt[i] != '(' {
      if i < 5 {
      } else if i < 5 + |r| {
        assert rt[i] == r[i - 5];
      } else if i < 12 + |r| {
      } else if i < 12 + |r| + |w| {
        assert rt[i] == w[i - 12 - |r|];
      }
    }
    JoinNoDoubleDot("rows=", r);
    JoinNoDoubleDot(" width=", w);
    JoinNoDoubleDot(" width=" + w, ")");
    JoinNoDoubleDot(head, tail);
  }

  /**
   * A rows tail whose last " width=" is at `c` (counted after "rows=") and whose only ")"
   * after it closes the text.
   */
  lemma RowsWidthTailAt(t: string, c: int)
    requires StartsWith(t, "rows=") && |t| >= 13 && t[|t| - 1] == ')'
    requires HasAt(t[5..], c, " width=") && c + 7 <= |t| - 6
    requires forall j | c < j < |t| - 6 :: t[5..][j] != ' '
    ensures RowsWidthTail(t) == Some((t[5..][..c], t[5..][c + 7..|t| - 6]))
  {
    var w := t[5..];
    assert HasAt(w, |w| - 1, ")");
    assert LastIndexBefore(w, ")", |w|) == |w| - 1;
    forall j | c < j && j + 7 <= |w| - 1 ensures !HasAt(w, j, " width=") {
      assert w[j..j + 7][0] == w[j];
    }
    assert LastIndexBefore(w, " width=", |w| - 1) == c;
  }

  /** The rows tail of a node line gives back the row and width texts. */
  lemma RowsTailGroups(r: string, w: string)
    requires Number(r) && Number(w)
    ensures RowsWidthTail(RowsText(r, w)) == Some((r, w))
  {
    var t := RowsText(r, w);
    RowsTextFacts(r, w);
    var tw := t[5..];
    assert tw == r + " width=" + w + ")";
    assert HasAt(tw, |r|, " width=");
    forall j | |r| < j < |t| - 6 ensures tw[j] != ' ' {
      assert tw[j] == t[j + 5];
    }
    RowsWidthTailAt(t, |r|);
    assert tw[..|r|] == r && tw[|r| + 7..|t| - 6] == w;
  }

  /** The last space followed by a rows tail ends the second cost group. */
  lemma CostSecondAtLast(v: string, b: int, r: string, w: string)
    requires 0 <= b < |v| && v[b] == ' ' && RowsWidthTail(v[b + 1..]) == Some((r, w))
    requires forall k | b < k < |v| - 1 :: v[k] != ' ' || v[k + 1] != 'r'
    ensures CostSecond(v, |v| - 1) == Some((v[..b], r, w))
  {
    assert CostSecondAt(v, b);
    NoLaterCostSecond(v, b);
    CostSecondFrom(v, |v| - 1, b);
  }

  lemma NoLaterCostSecond(v: string, b: int)
    requires 0 <= b < |v|
    requires forall k | b < k < |v| - 1 :: v[k] != ' ' || v[k + 1] != 'r'
    ensures forall k | b < k <= |v| - 1 :: !CostSecondAt(v, k)
  {
    forall k | b < k <= |v| - 1 ensures !CostSecondAt(v, k) {
      var rest := v[k + 1..];
      assert k + 1 < |v| ==> rest[0] == v[k + 1] && (v[k] != ' ' || v[k + 1] != 'r');
      NotRowsTailOrNoSpace(v, k, rest);
    }
  }

  lemma NotRowsTailOrNoSpace(v: string, k: int, rest: string)
    requires 0 <= k < |v| && rest == v[k + 1..]
    requires |rest| == 0 || v[k] != ' ' || rest[0] != 'r'
    ensures !CostSecondAt(v, k)
  {
    if v[k] == ' ' {
      NotRowsTail(rest);
    }
  }

  /** A text that does not begin with 'r' is not a rows tail. */
  lemma NotRowsTail(t: string)
    requires |t| == 0 || t[0] != 'r'
    ensures RowsWidthTail(t).None?
  {
    if |t| >= 5 {
      assert t[0..5][0] == t[0];
    }
  }

  /** The text after the cost group's "..": the total and the rows tail. */
  lemma CostSecondGroups(b: string, r: string, w: string)
    requires Number(r) && Number(w)
    ensures var v := b + " " + RowsText(r, w);
            CostSecond(v, |v| - 1) == Some((b, r, w))
  {
    var rt := RowsText(r, w);
    var v := b + " " + rt;
    RowsTailGroups(r, w);
    RowsTextFacts(r, w);
    assert v[|b| + 1..] == rt;
    forall k | |b| < k < |v| - 1 ensures v[k] != ' ' || v[k + 1] != 'r' {
      assert v[k] == rt[k - |b| - 1] && v[k + 1] == rt[k - |b|];
    }
    CostSecondAtLast(v, |b|, r, w);
    assert v[..|b|] == b;
  }

  /** No ".." after the startup text of a cost group made of numbers. */
  lemma NoDoubleDotAfter(a: string, b: string, r: string, w: string)
    requires Number(b) && Number(r) && Number(w)
    ensures var u := a + ".." + b + " " + RowsText(r, w);
            forall k | |a| < k :: !HasAt(u, k, "..")
  {
    var rt := RowsText(r, w);
    var u := a + ".." + b + " " + rt;
    RowsTextFacts(r, w);
    JoinNoDoubleDot(".", b);
    JoinNoDoubleDot("." + b, " ");
    JoinNoDoubleDot("." + b + " ", rt);
    var rest := "." + b + " " + rt;
    assert u[|a| + 1..] == rest;
    forall k | |a| < k ensures !HasAt(u, k, "..") {
      if k + 2 <= |u| {
        assert u[k] == rest[k - |a| - 1] && u[k + 1] == rest[k - |a|];
      }
    }
  }

  /** The cost group and rows tail after "cost=": both cost texts come back unchanged. */
  lemma CostFirstGroups(a: string, b: string, r: string, w: string)
    requires Number(b) && Number(r) && Number(w)
    ensures var u := a + ".." + b + " " + RowsText(r, w);
            CostFirst(u, |u|) == Some((a, b, r, w))
  {
    var u := a + ".." + b + " " + RowsText(r, w);
    var v := b + " " + RowsText(r, w);
    assert u[|a| + 2..] == v;
    CostSecondGroups(b, r, w);
    assert CostFirstAt(u, |a|);
    NoDoubleDotAfter(a, b, r, w);
    CostFirstFrom(u, |u|, |a|);
    assert u[..|a|] == a;
  }

  /** No "(" in a cost group and rows tail made of numbers. */
  lemma TailHasNoParen(a: string, b: string, r: string, w: string)
    requires Number(a) && Number(b) && Number(r) && Number(w)
    ensures var t := CostText(a, b) + RowsText(r, w);
            forall i | 0 <= i < |t| :: t[i] != '('
  {
    var rt := RowsText(r, w);
    var t := CostText(a, b) + rt;
    RowsTextFacts(r, w);
    forall i | 0 <= i < |t| ensures t[i] != '(' {
      if i < 5 {
      } else if i < 5 + |a| {
        assert t[i] == a[i - 5];
      } else if i < 7 + |a| {
      } else if i < 7 + |a| + |b| {
        assert t[i] == b[i - 7 - |a|];
      } else if i < 8 + |a| + |b| {
      } else {
        assert t[i] == rt[i - 8 - |a| - |b|];
      }
    }
  }

  /**
   * The last " (" of a line followed by a cost group and rows tail: NODE reads the groups
   * found there.
   */
  lemma NodeShapeAtCost(s: string, j: int, a: string, b: string, r: string, w: string)
    requires 0 <= j <= |s| && HasAt(s, j, " (") && CostTail(s[j + 2..]) == Some((a, b, r, w))
    requires forall i | j + 2 <= i < |s| :: s[i] != '('
    ensures NodeShape(s) == Some(NodeGroups(s[..j], true, a, b, r, w))
  {
    assert NodeHit(s, j);
    forall k | j < k <= |s| ensures !NodeHit(s, k) {
      if k + 2 <= |s| {
        assert s[k + 1] != '(';
        assert s[k..k + 2][1] == s[k + 1];
      }
    }
    NodeAtFrom(s, |s|, j);
  }

  /** `p (cost=a..b rows=r width=w)`, with numbers for a, b, r and w: NODE reads back every part. */
  lemma NodeLineGroups(p: string, a: string, b: string, r: string, w: string)
    requires Number(a) && Number(b) && Number(r) && Number(w)
    ensures NodeShape(p + " (" + CostText(a, b) + RowsText(r, w)) == Some(NodeGroups(p, true, a, b, r, w))
  {
    var t := CostText(a, b) + RowsText(r, w);
    var s := p + " (" + t;
    var u := a + ".." + b + " " + RowsText(r, w);
    assert s[|p| + 2..] == t && t[5..] == u;
    CostFirstGroups(a, b, r, w);
    assert CostTail(t) == Some((a, b, r, w));
    assert s[..|p|] == p;
    TailHasNoParen(a, b, r, w);
    forall i | |p| + 2 <= i < |s| ensures s[i] != '(' {
      assert s[i] == t[i - |p| - 2];
    }
    NodeShapeAtCost(s, |p|, a, b, r, w);
    assert s == p + " (" + CostText(a, b) + RowsText(r, w);
  }

  /** `p (rows=r width=w)`, with numbers for r and w: NODE reads it with no cost group. */
  lemma NodeLineRowsGroups(p: string, r: string, w: string)
    requires Number(r) && Number(w)
    ensures NodeShape(p + " (" + RowsText(r, w)) == Some(NodeGroups(p, false, "", "", r, w))
  {
    var t := RowsText(r, w);
    var s := p + " (" + t;
    RowsTextFacts(r, w);
    RowsTailGroups(r, w);
    assert s[|p| + 2..] == t && s[..|p|] == p;
    assert t[0..5][0] == t[0];
    assert CostTail(t).None?;
    forall i | |p| + 2 <= i < |s| ensures s[i] != '(' {
      assert s[i] == t[i - |p| - 2];
    }
    NodeShapeAtRows(s, |p|, r, w);
  }

  /** The last " (" of a line followed by a rows tail alone: NODE reads it with no cost group. */
  lemma NodeShapeAtRows(s: string, j: int, r: string, w: string)
    requires 0 <= j <= |s| && HasAt(s, j, " (") && CostTail(s[j + 2..]).None?
    requires RowsWidthTail(s[j + 2..]) == Some((r, w))
    requires forall i | j + 2 <= i < |s| :: s[i] != '('
    ensures NodeShape(s) == Some(NodeGroups(s[..j], false, "", "", r, w))
  {
    assert NodeHit(s, j);
    forall k | j < k <= |s| ensures !NodeHit(s, k) {
      if k + 2 <= |s| {
        assert s[k + 1] != '(';
        assert s[k..k + 2][1] == s[k + 1];
      }
    }
    NodeAtFrom(s, |s|, j);
  }

  lemma HasAtMiddle(s: string, t: string, a: string, x: string, b: string)
    requires StartsWith(s, t) && t == a + x + b
    ensures Contains(s, x)
  {
    assert s[|a|..|a| + |x|] == t[|a|..|a| + |x|];
    ContainsAt(s, x, |a|);
  }

  /** What every node line contains: " (", "rows=", " width=" and ")". */
  lemma NodeShapeNeeds(s: string)
    requires NodeShape(s).Some?
    ensures Contains(s, " (") && Contains(s, "rows=") && Contains(s, " width=") && Contains(s, ")")
  {
    var g := NodeShape(s).value;
    NodeShapeSound(s);
    var cost := if g.costed then CostText(g.startup, g.total) else "";
    NodeTextNeeds(s, g.prefix, cost, g.rows, g.width);
  }

  lemma NodeTextNeeds(s: string, prefix: string, cost: string, r: string, w: string)
    requires StartsWith(s, prefix + " (" + cost + RowsText(r, w))
    ensures Contains(s, " (") && Contains(s, "rows=") && Contains(s, " width=") && Contains(s, ")")
  {
    var t := prefix + " (" + cost + RowsText(r, w);
    var head := prefix + " (" + cost;
    HasAtMiddle(s, t, prefix, " (", cost + RowsText(r, w));
    HasAtMiddle(s, t, head, "rows=", r + " width=" + w + ")");
    HasAtMiddle(s, t, head + "rows=" + r, " width=", w + ")");
    HasAtMiddle(s, t, head + "rows=" + r + " width=" + w, ")", "");
  }

  /** A line on which no " (" is followed by "cost=" or "rows=" is not a node line. */
  lemma NodeShapeNeedsTail(s: string)
    requires forall j | HasAt(s, j, " (") :: !HasAt(s, j + 2, "cost=") && !HasAt(s, j + 2, "rows=")
    ensures NodeShape(s).None?
  {
    forall k | 0 <= k <= |s| ensures !NodeHit(s, k) {
      if HasAt(s, k, " (") {
        var t := s[k + 2..];
        assert !StartsWith(t, "cost=") by {
          if |t| >= 5 { assert t[0..5] == s[k + 2..k + 7]; }
        }
        assert !StartsWith(t, "rows=") by {
          if |t| >= 5 { assert t[0..5] == s[k + 2..k + 7]; }
        }
      }
    }
    NodeAtNone(s, |s|);
  }

  // ---------------------------------------------------------------------------------------
  // SLICE: `(.*)  \(slice([0-9]*)`
  // ---------------------------------------------------------------------------------------

  datatype SliceGroups = SliceGroups(operator: string, slice: string)

  /**
   * SLICE: the text before the last "  (slice" (exactly two spaces) and the digits right
   * after it, which may be none.
   */
  function SliceShape(s: string): (r: Option<SliceGroups>)
    ensures r.Some? <==> Contains(s, "  (slice")
    ensures r.Some? ==> AllDigits(r.value.slice)
    ensures r.Some? ==> HasAt(s, |r.value.operator|, "  (slice" + r.value.slice)
    ensures r.Some? ==> forall j | |r.value.operator| < j :: !HasAt(s, j, "  (slice")
  {
    var j := LastIndexBefore(s, "  (slice", |s|);
    if j < 0 then
      assert !Contains(s, "  (slice") by {
        var k := Index(s, "  (slice");
        assert k >= 0 ==> HasAt(s, k, "  (slice") && k + 8 <= |s|;
      }
      None
    else
      var e := RunEnd(s, j + 8, Digit);
      var digits := s[j + 8..e];
      assert AllDigits(digits);
      HasAtConcat(s, j, "  (slice", digits);
      ContainsAt(s, "  (slice", j);
      Some(SliceGroups(s[..j], digits))
  }

  /** The slice number is taken greedily: the character after it is not a digit. */
  lemma SliceShapeGreedy(s: string)
    requires SliceShape(s).Some?
    ensures var g := SliceShape(s).value;
            |g.operator| + 8 + |g.slice| < |s| ==> !IsDigit(s[|g.operator| + 8 + |g.slice|])
  {
    var j := LastIndexBefore(s, "  (slice", |s|);
    var e := RunEnd(s, j + 8, Digit);
    assert SliceShape(s).value.operator == s[..j];
    assert SliceShape(s).value.slice == s[j + 8..e];
  }

  // ---------------------------------------------------------------------------------------
  // Scan object names (plan/plan.go)
  // ---------------------------------------------------------------------------------------

  /** `Scan (on|using) (\S+)` at position k: the object name. */
  function ScanObjectAt(s: string, k: int): (r: Option<string>)
    ensures r.Some? ==> |r.value| > 0 && forall j | 0 <= j < |r.value| :: !IsBlank(r.value[j])
  {
    if HasAt(s, k, "Scan on ") && RunEnd(s, k + 8, NonBlank) > k + 8 then
      Some(s[k + 8..RunEnd(s, k + 8, NonBlank)])
    else if HasAt(s, k, "Scan using ") && RunEnd(s, k + 11, NonBlank) > k + 11 then
      Some(s[k + 11..RunEnd(s, k + 11, NonBlank)])
    else None
  }

  /** Leftmost ` Scan (on|using) (\S+)` at or after `k`. */
  function TableScanFrom(s: string, k: nat): Option<string>
    decreases |s| - k
  {
    if k >= |s| then None
    else if s[k] == ' ' && ScanObjectAt(s, k + 1).Some? then ScanObjectAt(s, k + 1)
    else TableScanFrom(s, k + 1)
  }

  /** `(Index ){0,0} Scan (on|using) (\S+)`: the object of a plain scan, or None. */
  function TableScanObject(operator: string): Option<string> {
    TableScanFrom(operator, 0)
  }

  /** Rightmost `Scan (on|using) (\S+)` at a position in [lo, k]. */
  function LastScanObject(s: string, lo: int, k: int): Option<string>
    decreases k - lo + 1
  {
    if k < lo then None
    else if ScanObjectAt(s, k).Some? then ScanObjectAt(s, k)
    else LastScanObject(s, lo, k - 1)
  }

  /**
   * `Index.*Scan (on|using) (\S+)`: the first "Index", then the greedy `.*` reaches the last
   * scan clause after it.
   */
  function IndexScanObject(operator: string): Option<string> {
    var i := Index(operator, "Index");
    if i < 0 then None else LastScanObject(operator, i + 5, |operator|)
  }

  // ---------------------------------------------------------------------------------------
  // Annotation-line shapes (plan/plan.go, parseNodeExtraInfo)
  // ---------------------------------------------------------------------------------------

  const RowsAtDestinationShape: Shape := [Run(Digit), Lit(" rows at destination")]
  const RowsWithMsShape: Shape := [Run(Digit), Lit(" rows with "), Run(NonBlank), Lit(" ms")]
  const MaxRowsShape: Shape := [Lit("Max "), Run(NonBlank), Lit(" rows")]
  const MsFirstShape: Shape := [Lit(" "), Run(NonBlank), Lit(" ms to first row")]
  const MsEndShape: Shape := [Lit(" "), Run(NonBlank), Lit(" ms to end")]
  const MsOffsetShape: Shape := [Lit("start offset by "), Run(NonBlank), Lit(" ms")]
  const AvgRowsShape: Shape := [Lit("Avg "), Run(NonBlank), Lit(" ")]
  const WorkersShape: Shape := [Lit(" x "), Run(Digit), Lit(" workers")]
  const ScansShape: Shape := [Lit("of "), Run(Digit), Lit(" scans")]
  const MaxSegShape: Shape := [Lit(" (seg"), Run(Digit), Lit(") ")]
  const MaxRowsParenShape: Shape := [Lit("Max "), Run(NonBlank), Lit(" rows (")]
  const RowsParenShape: Shape := [Lit(" "), Run(NonBlank), Lit(" rows (")]
  const WorkMemAvgShape: Shape := [Lit("Work_mem used:"), Run(Blank), Run(Digit), Lit("K bytes avg")]
  const WorkMemMaxShape: Shape := [Run(Blank), Run(Digit), Lit("K bytes max")]
  const SpillShape: Shape := [Lit("("), Run(Digit), Lit(" spilling,"), Run(Blank), Run(Digit), Lit(" reused)")]
  const PartSelectedShape: Shape := [Lit("Partitions selected:  "), Run(Digit), Lit(" (out of "), Run(Digit), Lit(")")]

  /** The capture of a one-run shape, or None. */
  function Capture(line: string, shape: Shape): Option<string>
    requires RunCount(shape) >= 1
  {
    var m := Find(line, shape);
    if m.Some? then Some(m.value[0]) else None
  }

  /** `Filter: (.*)`: the rest of the line after the first "Filter: ". */
  function FilterText(line: string): (r: Option<string>)
    ensures r.Some? <==> Contains(line, "Filter: ")
    ensures r.Some? ==> |r.value| + 8 <= |line| && r.value == line[|line| - |r.value|..]
    ensures r.Some? ==> HasAt(line, |line| - |r.value| - 8, "Filter: ")
    ensures r.Some? ==> forall j | 0 <= j < |line| - |r.value| - 8 :: !HasAt(line, j, "Filter: ")
  {
    var i := Index(line, "Filter: ");
    if i < 0 then None else Some(line[i + 8..])
  }

  /** How many "Avg " repetitions open `t`. */
  function AvgRepeats(t: string): nat
    decreases |t|
  {
    if StartsWith(t, "Avg ") then 1 + AvgRepeats(t[4..]) else 0
  }

  /** `(.*) \(out of (\d+)\)` at the start of `t`, trying the longest `(.*)` (ending at q) first. */
  function OutOfTail(t: string, q: int): Option<(string, string)>
    requires q <= |t|
    decreases q + 1
  {
    if q < 0 then None
    else if HasAt(t, q, " (out of ") && RunEnd(t, q + 9, Digit) > q + 9
            && HasAt(t, RunEnd(t, q + 9, Digit), ")") then
      Some((t[..q], t[q + 9..RunEnd(t, q + 9, Digit)]))
    else OutOfTail(t, q - 1)
  }

  /** `(Avg ){0,}` taken `n` times or fewer, most first, then the out-of tail. */
  function ScannedAfterAvg(t: string, n: nat): Option<(string, string)>
    requires 4 * n <= |t|
  {
    var rest := t[4 * n..];
    var r := OutOfTail(rest, |rest|);
    if r.Some? || n == 0 then r else ScannedAfterAvg(t, n - 1)
  }

  lemma AvgRepeatsFit(t: string)
    ensures 4 * AvgRepeats(t) <= |t|
  {
    if StartsWith(t, "Avg ") { AvgRepeatsFit(t[4..]); }
  }

  /** Leftmost "Partitions scanned:  " at or after `i` that the rest of the shape completes. */
  function ScannedFrom(line: string, i: nat): Option<(string, string)>
    decreases |line| - i
  {
    if i + 21 > |line| then None
    else if HasAt(line, i, "Partitions scanned:  ") then
      var t := line[i + 21..];
      AvgRepeatsFit(t);
      var r := ScannedAfterAvg(t, AvgRepeats(t));
      if r.Some? then r else ScannedFrom(line, i + 1)
    else ScannedFrom(line, i + 1)
  }

  /**
   * `Partitions scanned:  (Avg ){0,}(.*) \(out of (\d+)\)`: the scanned-count text and the
   * total's digits.
   */
  function PartScannedGroups(line: string): Option<(string, string)> {
    ScannedFrom(line, 0)
  }

  // ---------------------------------------------------------------------------------------
  // Operator and filter shapes of plan/checker.go
  // ---------------------------------------------------------------------------------------

  /** `(Dynamic Table|Table|Parquet table|Bitmap Index|Bitmap Append-Only Row-Oriented|Seq) Scan`. */
  predicate IsScanOperator(op: string) {
    Contains(op, "Dynamic Table Scan") || Contains(op, "Table Scan") || Contains(op, "Parquet table Scan")
    || Contains(op, "Bitmap Index Scan") || Contains(op, "Bitmap Append-Only Row-Oriented Scan")
    || Contains(op, "Seq Scan")
  }

  /** `(Broadcast|Redistribute) Motion`. */
  predicate IsMotionOperator(op: string) {
    Contains(op, "Broadcast Motion") || Contains(op, "Redistribute Motion")
  }

  /** `_[0-9]+_prt_`: a child-partition table name. */
  const ChildPartitionShape: Shape := [Lit("_"), Run(Digit), Lit("_prt_")]

  /** A '(' at `k` with a non-blank character before it and ") " somewhere after it. */
  function CallFrom(s: string, k: nat): (b: bool)
    decreases |s| - k
    ensures b <==> exists j | k <= j < |s| :: 1 <= j && s[j] == '(' && !IsBlank(s[j - 1]) && Contains(s[j + 1..], ") ")
  {
    if k >= |s| then false
    else if 1 <= k && s[k] == '(' && !IsBlank(s[k - 1]) && Contains(s[k + 1..], ") ") then true
    else CallFrom(s, k + 1)
  }

  /** `\S+\(.*\) `: the filter text calls a function. */
  predicate FilterCallsFunction(filter: string) {
    CallFrom(filter, 0)
  }
}
