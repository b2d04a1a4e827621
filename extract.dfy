/**
 * parseNodeExtraInfo (plan/plan.go): the node's own line gives its operator, slice, scanned
 * object, costs, estimated rows and width; every line collected below it may add EXPLAIN
 * ANALYZE figures, memory, spill files, partition counts and a filter.
 *
 * The per-line work is specified by pure functions over an `Annotation` value, split by the
 * four independent groups of fields the lines feed; `ParseNodeExtraInfo` writes the node's
 * fields line by line and is proved to leave them at the fold of those functions.
 */
module NodeLines {
  import opened Wrappers
  import opened GoStrings
  import opened Pattern
  import opened PlanNode

  // ---------------------------------------------------------------------------------------
  // The node line
  // ---------------------------------------------------------------------------------------

  /** What the node's own line gives. */
  datatype Header = Header(operator: string, slice: int, objectName: string, objectType: string,
                           startupCost: real, totalCost: real, rows: int, width: int)

  /** The operator and slice: `(.*)  \(slice([0-9]*)` on the text before the parentheses. */
  function OperatorAndSlice(prefix: string): (r: (string, int))
    ensures r.1 >= -1
    ensures r.1 == -1 <==> !Contains(prefix, "  (slice")
  {
    var sg := SliceShape(prefix);
    if sg.Some? then
      var digits := sg.value.slice;
      TrimSpaceOfDigits(digits);
      ParseIntOfDigits(digits);
      (TrimSpace(sg.value.operator), ParseInt(TrimSpace(digits)).value)
    else (TrimSpace(prefix), -1)
  }

  /** The scanned object: a plain scan gives a TABLE, an index scan (checked last) an INDEX. */
  function ScanTarget(operator: string): (r: (string, string))
    ensures r.1 == "INDEX" || r.1 == "TABLE" || r.1 == ""
    ensures r.1 == "" <==> r.0 == ""
    ensures r.1 == "INDEX" <==> IndexScanObject(operator).Some?
    ensures r.1 == "TABLE" <==> IndexScanObject(operator).None? && TableScanObject(operator).Some?
  {
    var table := TableScanObject(operator);
    var index := IndexScanObject(operator);
    if index.Some? then
      IndexObjectNonEmpty(operator);
      (index.value, "INDEX")
    else if table.Some? then
      TableObjectNonEmpty(operator, 0);
      (table.value, "TABLE")
    else ("", "")
  }

  lemma {:induction false} TableObjectNonEmpty(s: string, k: nat)
    requires TableScanFrom(s, k).Some?
    ensures |TableScanFrom(s, k).value| > 0
    decreases |s| - k
  {
    if !(s[k] == ' ' && ScanObjectAt(s, k + 1).Some?) {
      TableObjectNonEmpty(s, k + 1);
    }
  }

  lemma {:induction false} LastScanObjectNonEmpty(s: string, lo: int, k: int)
    requires LastScanObject(s, lo, k).Some?
    ensures |LastScanObject(s, lo, k).value| > 0
    decreases k - lo + 1
  {
    if ScanObjectAt(s, k).None? {
      LastScanObjectNonEmpty(s, lo, k - 1);
    }
  }

  lemma IndexObjectNonEmpty(operator: string)
    requires IndexScanObject(operator).Some?
    ensures |IndexScanObject(operator).value| > 0
  {
    var i := Index(operator, "Index");
    LastScanObjectNonEmpty(operator, i + 5, |operator|);
  }

  /**
   * The node line read through NODE, or None when NODE does not match ("Unable to parse
   * node"). The arrow and spaces around the operator are trimmed first.
   */
  function ParseHeader(line: string): (h: Option<Header>)
    ensures h.Some? <==> NodeShape(line).Some?
    ensures h.Some? ==> h.value.slice >= -1
    ensures h.Some? ==> h.value.objectType in {"INDEX", "TABLE", ""}
    ensures h.Some? ==> (h.value.objectType == "" <==> h.value.objectName == "")
  {
    var g := NodeShape(line);
    if g.None? then None
    else
      var prefix := Trim(g.value.prefix, {' ', '-', '>'});
      var os := OperatorAndSlice(prefix);
      var target := ScanTarget(os.0);
      Some(Header(os.0, os.1, target.0, target.1,
                  ParseFloat(TrimSpace(g.value.startup)).value, ParseFloat(TrimSpace(g.value.total)).value,
                  ParseInt(TrimSpace(g.value.rows)).value, ParseInt(TrimSpace(g.value.width)).value))
  }

  // ---------------------------------------------------------------------------------------
  // The lines below the node
  // ---------------------------------------------------------------------------------------

  /** The EXPLAIN ANALYZE figures, read only from lines that contain "ms to end". */
  datatype Timing = Timing(isAnalyzed: bool, actualRows: real, maxRows: real, msFirst: real, msEnd: real,
                           msOffset: real, avgRows: real, workers: int, scans: int, maxSeg: string)

  /** Work memory, read only from lines that contain "Work_mem used", and spill files. */
  datatype Memory = Memory(avgMem: real, maxMem: real, spillFile: int, spillReuse: int)

  datatype Partitions = Partitions(selected: int, selectedTotal: int, scanned: int, scannedTotal: int)

  datatype Annotation = Annotation(timing: Timing, memory: Memory, partitions: Partitions, filter: string)

  /** The values the fields take before any line is read; "-" stands for no segment. */
  const Sentinels := Annotation(Timing(false, -1.0, -1.0, -1.0, -1.0, -1.0, -1.0, -1, -1, "-"),
                                Memory(-1.0, -1.0, -1, -1), Partitions(-1, -1, -1, -1), "")

  /** A float capture replaces the value only when it parses (`if s, err := ...; err == nil`). */
  function FloatOr(current: real, m: Option<string>): (r: real)
    ensures m.None? ==> r == current
    ensures m.Some? && ParseFloat(m.value).ok ==> r == ParseFloat(m.value).value
    ensures m.Some? && !ParseFloat(m.value).ok ==> r == current
  {
    if m.Some? && ParseFloat(m.value).ok then ParseFloat(m.value).value else current
  }

  /** An integer capture replaces the value only when it parses, as for floats. */
  function IntOr(current: int, m: Option<string>): (r: int)
    ensures m.None? ==> r == current
    ensures m.Some? && ParseInt(m.value).ok ==> r == ParseInt(m.value).value
    ensures m.Some? && !ParseInt(m.value).ok ==> r == current
  {
    if m.Some? && ParseInt(m.value).ok then ParseInt(m.value).value else current
  }

  /** The `k`th capture of a shape, or None. */
  function CaptureAt(line: string, shape: Shape, k: nat): Option<string>
    requires k < RunCount(shape)
  {
    var m := Find(line, shape);
    if m.Some? then Some(m.value[k]) else None
  }

  /**
   * The "ms to end" block: the line marks the node as analyzed and each shape that matches
   * (and parses) replaces its field. A `Max ... rows (` reading takes the maximum; only
   * without one does the loose ` ... rows (` reading replace the actual rows.
   */
  function TimingLine(t: Timing, line: string): Timing {
    if !Contains(line, "ms to end") then t
    else
      var rows1 := FloatOr(t.actualRows, Capture(line, RowsAtDestinationShape));
      var rows2 := FloatOr(rows1, Capture(line, RowsWithMsShape));
      var max1 := FloatOr(t.maxRows, Capture(line, MaxRowsShape));
      var seg := Capture(line, MaxSegShape);
      var maxParen := Capture(line, MaxRowsParenShape);
      var maxRows := if maxParen.Some? then FloatOr(max1, maxParen) else max1;
      var actualRows := if maxParen.Some? then rows2 else FloatOr(rows2, Capture(line, RowsParenShape));
      Timing(true, actualRows, maxRows,
             FloatOr(t.msFirst, Capture(line, MsFirstShape)),
             FloatOr(t.msEnd, Capture(line, MsEndShape)),
             FloatOr(t.msOffset, Capture(line, MsOffsetShape)),
             FloatOr(t.avgRows, Capture(line, AvgRowsShape)),
             IntOr(t.workers, Capture(line, WorkersShape)),
             IntOr(t.scans, Capture(line, ScansShape)),
             if seg.Some? then "seg" + seg.value else t.maxSeg)
  }

  /** The "Work_mem used" figures and the spill counts (the latter from any line). */
  function MemoryLine(m: Memory, line: string): Memory {
    var used := Contains(line, "Work_mem used");
    var avg := if used then FloatOr(m.avgMem, CaptureAt(line, WorkMemAvgShape, 1)) else m.avgMem;
    var max := if used then FloatOr(m.maxMem, CaptureAt(line, WorkMemMaxShape, 1)) else m.maxMem;
    var spill := Find(line, SpillShape);
    if spill.Some? then
      Memory(avg, max, ParseInt(TrimSpace(spill.value[0])).value, ParseInt(TrimSpace(spill.value[2])).value)
    else Memory(avg, max, m.spillFile, m.spillReuse)
  }

  /**
   * "Partitions selected:" and "Partitions scanned:" counts. A scanned count is parsed as a
   * float and truncated toward zero (it may be an average).
   */
  function PartitionsLine(p: Partitions, line: string): Partitions {
    var sel := Find(line, PartSelectedShape);
    var scan := PartScannedGroups(line);
    var p1 := if sel.Some? then p.(selected := ParseInt(TrimSpace(sel.value[0])).value,
                                   selectedTotal := ParseInt(TrimSpace(sel.value[1])).value)
              else p;
    if scan.Some? then
      p1.(scanned := TruncateToInt(ParseFloat(TrimSpace(scan.value.0)).value),
          scannedTotal := ParseInt(TrimSpace(scan.value.1)).value)
    else p1
  }

  /** `Filter: (.*)` replaces the filter. */
  function FilterLine(f: string, line: string): string {
    var m := FilterText(line);
    if m.Some? then m.value else f
  }

  /** One line below the node: the four groups of fields are fed independently. */
  function AnnotateLine(a: Annotation, line: string): Annotation {
    Annotation(TimingLine(a.timing, line), MemoryLine(a.memory, line),
               PartitionsLine(a.partitions, line), FilterLine(a.filter, line))
  }

  /** The lines below the node, read in order. */
  function AnnotateLines(a: Annotation, lines: seq<string>): Annotation {
    if |lines| == 0 then a else AnnotateLine(AnnotateLines(a, lines[..|lines| - 1]), lines[|lines| - 1])
  }

  /** Greenplum shows one time when first-row and end times agree: a missing first-row time takes the end time. */
  function Finish(a: Annotation): (r: Annotation)
    ensures r.timing.msFirst == (if a.timing.msFirst == -1.0 then a.timing.msEnd else a.timing.msFirst)
    ensures r.timing == a.timing.(msFirst := r.timing.msFirst)
    ensures r.memory == a.memory && r.partitions == a.partitions && r.filter == a.filter
    ensures r.timing.msFirst == -1.0 ==> r.timing.msEnd == -1.0
    ensures a.timing.msFirst != -1.0 ==> r == a
  {
    if a.timing.msFirst == -1.0 then a.(timing := a.timing.(msFirst := a.timing.msEnd)) else a
  }

  // ---------------------------------------------------------------------------------------
  // Properties of the per-line reading
  // ---------------------------------------------------------------------------------------

  /** Some line below the node shows EXPLAIN ANALYZE output. */
  predicate AnyAnalyzed(lines: seq<string>) {
    exists i | 0 <= i < |lines| :: Contains(lines[i], "ms to end")
  }

  /** Reading one more line marks the node analyzed exactly when that line has "ms to end". */
  lemma AnalyzedStep(a: Annotation, lines: seq<string>)
    requires |lines| > 0
    ensures AnnotateLines(a, lines).timing.isAnalyzed
        == (AnnotateLines(a, lines[..|lines| - 1]).timing.isAnalyzed || Contains(lines[|lines| - 1], "ms to end"))
  {
  }

  /** A line has "ms to end" somewhere in `lines` exactly when it does in all but the last or in the last. */
  lemma AnyAnalyzedStep(lines: seq<string>)
    requires |lines| > 0
    ensures AnyAnalyzed(lines) == (AnyAnalyzed(lines[..|lines| - 1]) || Contains(lines[|lines| - 1], "ms to end"))
  {
    var init := lines[..|lines| - 1];
    if AnyAnalyzed(init) {
      var i :| 0 <= i < |init| && Contains(init[i], "ms to end");
      assert lines[i] == init[i];
    }
    if AnyAnalyzed(lines) && !Contains(lines[|lines| - 1], "ms to end") {
      var i :| 0 <= i < |lines| && Contains(lines[i], "ms to end");
      assert init[i] == lines[i];
    }
  }

  /** A node is analyzed exactly when one of its lines contains "ms to end". */
  lemma {:induction false} AnalyzedIffMsToEnd(lines: seq<string>)
    ensures AnnotateLines(Sentinels, lines).timing.isAnalyzed <==> AnyAnalyzed(lines)
  {
    if |lines| > 0 {
      AnalyzedIffMsToEnd(lines[..|lines| - 1]);
      AnalyzedStep(Sentinels, lines);
      AnyAnalyzedStep(lines);
    }
  }

  /** Without EXPLAIN ANALYZE output the timing figures keep their sentinels, whatever else the lines say. */
  lemma {:induction false} PlainExplainKeepsTiming(a: Annotation, lines: seq<string>)
    requires !AnyAnalyzed(lines)
    ensures AnnotateLines(a, lines).timing == a.timing
  {
    if |lines| > 0 {
      var init := lines[..|lines| - 1];
      assert !Contains(lines[|lines| - 1], "ms to end");
      assert !AnyAnalyzed(init) by {
        forall i | 0 <= i < |init| ensures !Contains(init[i], "ms to end") {
          assert init[i] == lines[i];
        }
      }
      PlainExplainKeepsTiming(a, init);
    }
  }

  /** The filter of the last line that has one, if any. */
  function LastFilter(lines: seq<string>): Option<string> {
    if |lines| == 0 then None
    else if FilterText(lines[|lines| - 1]).Some? then FilterText(lines[|lines| - 1])
    else LastFilter(lines[..|lines| - 1])
  }

  /** The last "Filter: " line wins; without one the filter keeps its value. */
  lemma {:induction false} FilterIsLast(a: Annotation, lines: seq<string>)
    ensures AnnotateLines(a, lines).filter == LastFilter(lines).GetOr(a.filter)
  {
    if |lines| > 0 {
      FilterIsLast(a, lines[..|lines| - 1]);
    }
  }

  /** A `Max ... rows (` reading leaves the actual rows to the other two shapes. */
  lemma MaxReadingKeepsActualRows(t: Timing, line: string)
    requires Contains(line, "ms to end")
    requires Capture(line, MaxRowsParenShape).Some?
    requires Capture(line, RowsAtDestinationShape).None? && Capture(line, RowsWithMsShape).None?
    ensures TimingLine(t, line).actualRows == t.actualRows
  {
  }

  // ---------------------------------------------------------------------------------------
  // The node's fields
  // ---------------------------------------------------------------------------------------

  function HeaderOf(n: Node): Header
    reads n`Operator, n`Slice, n`Object, n`ObjectType, n`StartupCost, n`TotalCost, n`Rows, n`Width
  {
    Header(n.Operator, n.Slice, n.Object, n.ObjectType, n.StartupCost, n.TotalCost, n.Rows, n.Width)
  }

  function TimingOf(n: Node): Timing
    reads n`IsAnalyzed, n`ActualRows, n`MaxRows, n`MsFirst, n`MsEnd, n`MsOffset, n`AvgRows
    reads n`Workers, n`Scans, n`MaxSeg
  {
    Timing(n.IsAnalyzed, n.ActualRows, n.MaxRows, n.MsFirst, n.MsEnd, n.MsOffset, n.AvgRows,
           n.Workers, n.Scans, n.MaxSeg)
  }

  function MemoryOf(n: Node): Memory
    reads n`AvgMem, n`MaxMem, n`SpillFile, n`SpillReuse
  {
    Memory(n.AvgMem, n.MaxMem, n.SpillFile, n.SpillReuse)
  }

  function PartitionsOf(n: Node): Partitions
    reads n`PartSelected, n`PartSelectedTotal, n`PartScanned, n`PartScannedTotal
  {
    Partitions(n.PartSelected, n.PartSelectedTotal, n.PartScanned, n.PartScannedTotal)
  }

  function AnnotationOf(n: Node): Annotation
    reads n`IsAnalyzed, n`ActualRows, n`MaxRows, n`MsFirst, n`MsEnd, n`MsOffset, n`AvgRows
    reads n`Workers, n`Scans, n`MaxSeg, n`AvgMem, n`MaxMem, n`SpillFile, n`SpillReuse
    reads n`PartSelected, n`PartSelectedTotal, n`PartScanned, n`PartScannedTotal, n`Filter
  {
    Annotation(TimingOf(n), MemoryOf(n), PartitionsOf(n), n.Filter)
  }

  // ---------------------------------------------------------------------------------------
  // parseNodeExtraInfo
  // ---------------------------------------------------------------------------------------

  method SetHeader(n: Node, h: Header)
    modifies n`Operator, n`Slice, n`Object, n`ObjectType, n`StartupCost, n`TotalCost, n`Rows, n`Width
    ensures HeaderOf(n) == h
  {
    n.Operator, n.Slice := h.operator, h.slice;
    n.Object, n.ObjectType := h.objectName, h.objectType;
    n.StartupCost, n.TotalCost := h.startupCost, h.totalCost;
    n.Rows, n.Width := h.rows, h.width;
  }

  method SetTiming(n: Node, t: Timing)
    modifies n`IsAnalyzed, n`ActualRows, n`MaxRows, n`MsFirst, n`MsEnd, n`MsOffset, n`AvgRows
    modifies n`Workers, n`Scans, n`MaxSeg
    ensures TimingOf(n) == t
  {
    n.IsAnalyzed, n.ActualRows, n.MaxRows, n.AvgRows, n.Workers := t.isAnalyzed, t.actualRows, t.maxRows, t.avgRows, t.workers;
    n.MsFirst, n.MsEnd, n.MsOffset, n.Scans, n.MaxSeg := t.msFirst, t.msEnd, t.msOffset, t.scans, t.maxSeg;
  }

  method SetMemory(n: Node, m: Memory)
    modifies n`AvgMem, n`MaxMem, n`SpillFile, n`SpillReuse
    ensures MemoryOf(n) == m
  {
    n.AvgMem, n.MaxMem, n.SpillFile, n.SpillReuse := m.avgMem, m.maxMem, m.spillFile, m.spillReuse;
  }

  method SetPartitions(n: Node, p: Partitions)
    modifies n`PartSelected, n`PartSelectedTotal, n`PartScanned, n`PartScannedTotal
    ensures PartitionsOf(n) == p
  {
    n.PartSelected, n.PartSelectedTotal, n.PartScanned, n.PartScannedTotal := p.selected, p.selectedTotal, p.scanned, p.scannedTotal;
  }

  /**
   * One line below the node: the readings of every block are worked out from the line and the
   * node's current values, then written back (a block the line does not touch is written back
   * unchanged).
   */
  method ReadLine(n: Node, line: string)
    modifies n`IsAnalyzed, n`ActualRows, n`MaxRows, n`MsFirst, n`MsEnd, n`MsOffset, n`AvgRows
    modifies n`Workers, n`Scans, n`MaxSeg, n`AvgMem, n`MaxMem, n`SpillFile, n`SpillReuse
    modifies n`PartSelected, n`PartSelectedTotal, n`PartScanned, n`PartScannedTotal, n`Filter
    ensures AnnotationOf(n) == AnnotateLine(old(AnnotationOf(n)), line)
  {
    var a := AnnotateLine(AnnotationOf(n), line);
    SetAnnotation(n, a);
  }

  method SetAnnotation(n: Node, a: Annotation)
    modifies n`IsAnalyzed, n`ActualRows, n`MaxRows, n`MsFirst, n`MsEnd, n`MsOffset, n`AvgRows
    modifies n`Workers, n`Scans, n`MaxSeg, n`AvgMem, n`MaxMem, n`SpillFile, n`SpillReuse
    modifies n`PartSelected, n`PartSelectedTotal, n`PartScanned, n`PartScannedTotal, n`Filter
    ensures AnnotationOf(n) == a
  {
    SetTiming(n, a.timing);
    SetMemory(n, a.memory);
    SetPartitions(n, a.partitions);
    n.Filter := a.filter;
  }

  /** The lines below the node, in order. */
  method ReadLines(n: Node, lines: seq<string>)
    modifies n`IsAnalyzed, n`ActualRows, n`MaxRows, n`MsFirst, n`MsEnd, n`MsOffset, n`AvgRows
    modifies n`Workers, n`Scans, n`MaxSeg, n`AvgMem, n`MaxMem, n`SpillFile, n`SpillReuse
    modifies n`PartSelected, n`PartSelectedTotal, n`PartScanned, n`PartScannedTotal, n`Filter
    ensures AnnotationOf(n) == AnnotateLines(old(AnnotationOf(n)), lines)
  {
    ghost var start := AnnotationOf(n);
    var i := 0;
    while i < |lines|
      invariant 0 <= i <= |lines|
      invariant AnnotationOf(n) == AnnotateLines(start, lines[..i])
    {
      assert lines[..i + 1][..i] == lines[..i];
      ReadLine(n, lines[i]);
      i := i + 1;
    }
    assert lines[..i] == lines;
  }

  // ---------------------------------------------------------------------------------------
  // A node's values as a whole
  // ---------------------------------------------------------------------------------------

  /** Everything parseNodeExtraInfo sets on a node. */
  datatype NodeValues = NodeValues(header: Header, annotation: Annotation)

  function ValuesOf(n: Node): NodeValues
    reads n`Operator, n`Slice, n`Object, n`ObjectType, n`StartupCost, n`TotalCost, n`Rows, n`Width
    reads n`IsAnalyzed, n`ActualRows, n`MaxRows, n`MsFirst, n`MsEnd, n`MsOffset, n`AvgRows
    reads n`Workers, n`Scans, n`MaxSeg, n`AvgMem, n`MaxMem, n`SpillFile, n`SpillReuse
    reads n`PartSelected, n`PartSelectedTotal, n`PartScanned, n`PartScannedTotal, n`Filter
  {
    NodeValues(HeaderOf(n), AnnotationOf(n))
  }

  /** What a node's collected lines say its values are; nothing when its own line is not a node line. */
  function ReadValues(extraInfo: seq<string>): (r: Option<NodeValues>)
    requires |extraInfo| > 0
    ensures r.Some? <==> NodeShape(extraInfo[0]).Some?
    ensures r.Some? ==> r.value.annotation.timing.msFirst == -1.0 ==> r.value.annotation.timing.msEnd == -1.0
  {
    match ParseHeader(extraInfo[0])
    case None => None
    case Some(h) => Some(NodeValues(h, Finish(AnnotateLines(Sentinels, extraInfo[1..]))))
  }

  /**
   * parseNodeExtraInfo. The object fields are cleared first, also when the node line does not
   * parse; then the header fields are set, the EXPLAIN ANALYZE fields are put at their
   * sentinels and every further line is read in order. A missing first-row time takes the
   * end time.
   */
  method ParseNodeExtraInfo(n: Node) returns (ok: bool)
    requires |n.ExtraInfo| > 0
    modifies n`Operator, n`Slice, n`Object, n`ObjectType, n`StartupCost, n`TotalCost, n`Rows, n`Width
    modifies n`IsAnalyzed, n`ActualRows, n`MaxRows, n`MsFirst, n`MsEnd, n`MsOffset, n`AvgRows
    modifies n`Workers, n`Scans, n`MaxSeg, n`AvgMem, n`MaxMem, n`SpillFile, n`SpillReuse
    modifies n`PartSelected, n`PartSelectedTotal, n`PartScanned, n`PartScannedTotal, n`Filter
    ensures ok <==> ParseHeader(old(n.ExtraInfo[0])).Some?
    ensures ok ==> HeaderOf(n) == ParseHeader(old(n.ExtraInfo[0])).value
    ensures ok ==> AnnotationOf(n) == Finish(AnnotateLines(Sentinels, old(n.ExtraInfo[1..])))
    ensures !ok ==> n.Object == "" && n.ObjectType == "" && AnnotationOf(n) == old(AnnotationOf(n))
    ensures !ok ==>
      && n.Operator == old(n.Operator) && n.Slice == old(n.Slice) && n.StartupCost == old(n.StartupCost)
      && n.TotalCost == old(n.TotalCost) && n.Rows == old(n.Rows) && n.Width == old(n.Width)
  {
    ok := ReadExtraInfo(n, ParseHeader(n.ExtraInfo[0]));
  }

  /** parseNodeExtraInfo once the node line has been matched against the NODE pattern (or not). */
  method ReadExtraInfo(n: Node, h: Option<Header>) returns (ok: bool)
    requires |n.ExtraInfo| > 0
    modifies n`Operator, n`Slice, n`Object, n`ObjectType, n`StartupCost, n`TotalCost, n`Rows, n`Width
    modifies n`IsAnalyzed, n`ActualRows, n`MaxRows, n`MsFirst, n`MsEnd, n`MsOffset, n`AvgRows
    modifies n`Workers, n`Scans, n`MaxSeg, n`AvgMem, n`MaxMem, n`SpillFile, n`SpillReuse
    modifies n`PartSelected, n`PartSelectedTotal, n`PartScanned, n`PartScannedTotal, n`Filter
    ensures ok <==> h.Some?
    ensures ok ==> HeaderOf(n) == h.value
    ensures ok ==> AnnotationOf(n) == Finish(AnnotateLines(Sentinels, old(n.ExtraInfo[1..])))
    ensures !ok ==> n.Object == "" && n.ObjectType == "" && AnnotationOf(n) == old(AnnotationOf(n))
    ensures !ok ==>
      && n.Operator == old(n.Operator) && n.Slice == old(n.Slice) && n.StartupCost == old(n.StartupCost)
      && n.TotalCost == old(n.TotalCost) && n.Rows == old(n.Rows) && n.Width == old(n.Width)
  {
    n.Object, n.ObjectType := "", "";
    if h.None? {
      return false;
    }
    ReadNode(n, h.value);
    return true;
  }

  /** The work after a node line that parses: header fields, sentinels, the lines below, the fix-up. */
  method ReadNode(n: Node, h: Header)
    requires |n.ExtraInfo| > 0
    modifies n`Operator, n`Slice, n`Object, n`ObjectType, n`StartupCost, n`TotalCost, n`Rows, n`Width
    modifies n`IsAnalyzed, n`ActualRows, n`MaxRows, n`MsFirst, n`MsEnd, n`MsOffset, n`AvgRows
    modifies n`Workers, n`Scans, n`MaxSeg, n`AvgMem, n`MaxMem, n`SpillFile, n`SpillReuse
    modifies n`PartSelected, n`PartSelectedTotal, n`PartScanned, n`PartScannedTotal, n`Filter
    ensures HeaderOf(n) == h
    ensures AnnotationOf(n) == Finish(AnnotateLines(Sentinels, old(n.ExtraInfo[1..])))
  {
    SetHeader(n, h);
    n.Init();
    assert HeaderOf(n) == h;
    assert AnnotationOf(n) == Sentinels;
    ReadLines(n, n.ExtraInfo[1..]);
    assert HeaderOf(n) == h;
    FinishTiming(n);
  }

  /** The closing fix-up: a node with an end time but no first-row time takes the end time. */
  method FinishTiming(n: Node)
    modifies n`MsFirst
    ensures AnnotationOf(n) == Finish(old(AnnotationOf(n)))
  {
    if n.MsFirst == -1.0 {
      n.MsFirst := n.MsEnd;
    }
  }
}
