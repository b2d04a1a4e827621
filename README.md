# planchecker's plan reader, modelled in Dafny

planchecker reads the text of a Greenplum/PostgreSQL `EXPLAIN` or `EXPLAIN ANALYZE` report and turns it into a tree of plan nodes. It then attaches warnings about the plan. This project models the `plan` package that does this work:

- **The line collector** (`parseLines`/`parseline`). It removes pgAdmin's quoting from every line (`checkQuote`). It then sorts each line into one of these kinds: noise, node header, SubPlan header, a closing section (slice statistics, statement statistics, settings, optimizer status, total runtime), or a line that belongs to the last node. Along the way it enforces the indentation rule for node lines.
- **The tree builder** (`BuildTree`). It makes two backward searches. The first hangs every plan under its host node. The second makes every node either the top node of a plan or a child of an earlier node.
- **The node reader** (`parseNodeExtraInfo`). It reads a node's own line through the NODE pattern: operator, slice, scanned object, costs, rows and width. It then reads the lines below the node for EXPLAIN ANALYZE figures, memory, spill files, partition counts and a filter.
- **The roll-up** (`CalculateSubNodeDiff`, `CalculatePercentage`) and the INSERT-root fix in `InitPlan`.
- **The checks**: the seven node checks (`NODECHECKS`) and the five report checks (`EXPLAINCHECKS`).
- **`InitPlan`**, which runs all of the above in order.

## How the model is laid out

| file | module | contents |
|---|---|---|
| `wrappers.dfy` | `Wrappers` | `Option` |
| `gostrings.dfy` | `GoStrings` | the pieces of Go's `strings`, `strconv` and `fmt` that the package calls, and int64 arithmetic |
| `pattern.dfy` | `Pattern` | every regular expression of the package, written as a matcher of its own |
| `planlines.dfy` | `PlanLines` | `getIndent`, `checkQuote` |
| `node.dfy` | `PlanNode` | the `Node` and `Plan` classes, `Init`, `CalculateSubNodeDiff`, `CalculatePercentage` |
| `extract.dfy` | `NodeLines` | `parseNodeExtraInfo`: a specification as folds over the node's lines, and a method that writes the node's fields |
| `tree.dfy` | `PlanTree` | `BuildTree`'s searches, specified on line positions; the two linking passes as methods |
| `checker.dfy` | `Checker` | both rule catalogs: rule functions, and the loops that run them |
| `explain.dfy` | `PlanExplain` | the collector as functions over a `Collected` record; what it guarantees about the nodes and plans it hands on |
| `explainobject.dfy` | `ExplainObject` | the `Explain` class; its methods are proved to follow the collector functions, then `BuildTree` and `InitPlan` |

Modelling choices:

- Go's `float64` costs, times and row counts are `real`. The int64 fields are `int`. Where int64 wrap-around can occur (`PartSelected*100`), `Wrap64` applies it explicitly.
- A division of a float by zero gives a `NonFinite` percentage.
- An integer division by zero is a Go run-time panic. So are the indexing and slicing panics of the section parsers. All of these are modelled as error values (`Failure.Panic`), not as preconditions.
- Every regular expression is a hand-written matcher. The shapes made of literals and character runs share one matcher (`Find`). The shapes with a greedy `(.*)` get their own searches, which try the longest `(.*)` first, as Go's engine does.

## Model

| member | source | states |
|---|---|---|
| GoStrings.LeadingCount | plan/plan.go:148 | the count of leading characters that satisfy the predicate: all of them do, and the next one does not |
| GoStrings.TrimLeftFunc | plan/plan.go:148 | the result is a suffix of the input, and it does not start with a trimmed character |
| GoStrings.TrimRightFunc | plan/explain.go:212 | the result is a prefix of the input, and it does not end with a trimmed character |
| GoStrings.Index | plan/explain.go:204 | `strings.Index`: the leftmost occurrence, or -1 exactly when there is none |
| GoStrings.LastIndexBefore | plan/pattern.go:7 | the rightmost occurrence that ends by the limit, or -1 when there is none |
| GoStrings.Split | plan/explain.go:410 | `strings.Split`: joining the pieces with the separator gives back the text, and no piece contains the separator |
| GoStrings.ParseInt | plan/plan.go:177 | `strconv.ParseInt`: the value is always within int64; a success needs a non-empty text; a run of digits within range reads as its value |
| GoStrings.ParseIntOfDigits | plan/plan.go:204 | a run of digits never reads as a negative number |
| GoStrings.TrimSpaceOfDigits | plan/plan.go:177 | a run of digits has nothing for `TrimSpace` to remove |
| GoStrings.ParseFloat | plan/plan.go:202 | `strconv.ParseFloat`: a syntax error gives 0 |
| GoStrings.ParseFloatDigits | plan/plan.go:247 | a run of digits reads as its integer value |
| GoStrings.TruncateToInt | plan/plan.go:399-400 | `int64(f)` truncates toward zero, from above or from below depending on the sign |
| GoStrings.NatDigits | plan/checker.go:85 | `%d` of a natural number is a non-empty run of digits |
| GoStrings.FormatIntRoundTrip | plan/checker.go:85 | printing an int64 with `%d` and reading it back with `ParseInt` gives the same number |
| GoStrings.Wrap64 | plan/checker.go:140 | the result is within int64, congruent to the exact value modulo 2^64, and equal to it when it fits |
| GoStrings.TruncDiv | plan/checker.go:140 | Go's integer `/`: the remainder has the dividend's sign and is smaller than the divisor |
| Pattern.Find | plan/plan.go:244-246 | `FindStringSubmatch` for a literal-and-run shape: the line contains the shape rendered with the captures, and every capture is a non-empty run of its class |
| Pattern.MemoryAmount | plan/pattern.go:17-18 | STATEMENTSTATS_USED/WANTED capture a non-empty run of digits, `.` and `-` that stands right before `K bytes` |
| Pattern.MarkerNeedsLeadingSpace | plan/pattern.go:8-22 | SUBPLAN and the section markers begin with a space, so their label is only seen at column 1 or later |
| Pattern.NodeShapeSound | plan/pattern.go:6 | a line NODE accepts starts with the operator text, ` (`, the optional cost group and the rows tail; without a cost group both cost texts are empty |
| Pattern.NodeShapeAtCost | plan/pattern.go:6 | when the last ` (` of a line is followed by a cost group and rows tail, NODE reads the groups found there |
| Pattern.NodeShapeAtRows | plan/pattern.go:6 | when the last ` (` of a line is followed by a rows tail alone, NODE reads it with no cost group |
| Pattern.CostFirstGroups | plan/pattern.go:6 | after `cost=`, NODE gives back the startup cost, total cost, rows and width texts unchanged |
| Pattern.CostSecondGroups | plan/pattern.go:6 | the text after the cost group's `..` gives back the total cost and the rows tail |
| Pattern.RowsTailGroups | plan/pattern.go:6 | the rows tail of a node line gives back the rows and width texts |
| Pattern.NodeLineGroups | plan/pattern_test.go:8-36 | a header `p (cost=a..b rows=r width=w)` with numbers for a, b, r and w is a node line, and NODE reads back every part; a slice group inside `p` is allowed |
| Pattern.NodeLineRowsGroups | plan/pattern_test.go:38-46 | a header `p (rows=r width=w)` is a node line without a cost group |
| Pattern.NodeShapeNeeds | plan/pattern_test.go:58-76 | every node line contains ` (`, `rows=`, ` width=` and `)`; so `rows1=` or a missing `)` is not a node line |
| Pattern.NodeShapeNeedsTail | plan/pattern_test.go:48-56 | a line on which no ` (` is followed by `cost=` or `rows=` (for example `costx=`) is not a node line |
| Pattern.SliceShape | plan/pattern.go:7 | SLICE matches exactly when the text contains `  (slice` with two spaces; it captures the text before the last such occurrence and the digits after it, which may be none |
| Pattern.SliceShapeGreedy | plan/pattern.go:7 | the slice digits are taken greedily: the character after them is not a digit |
| Pattern.ScanObjectAt | plan/plan.go:186-199 | the object name after `Scan on`/`Scan using` is a non-empty run of non-blank characters |
| Pattern.FilterText | plan/plan.go:407-412 | `Filter: (.*)` matches exactly when the line contains `Filter: `, and captures the rest of the line after its first occurrence |
| Pattern.CallFrom | plan/checker.go:211-213 | `\S+\(.*\) ` from a position: some `(` has a non-blank character before it and `) ` somewhere after it |
| PlanLines.GetIndent | plan/plan.go:147-149 | the number of leading spaces: every earlier character is a space and the one at that position is not |
| PlanLines.CheckQuote | plan/plan.go:592-601 | a line longer than 2 with `"` first and `"` second-to-last loses both quotes and its last character and gains a leading space; any other line is unchanged |
| PlanLines.CheckQuoteIdempotent | plan/plan.go:592-601 | removing the quotes a second time changes nothing |
| PlanLines.CheckQuoteIndents | plan/plan.go:595-597 | an unquoted line is indented by one column more than its text between the quotes |
| PlanNode.Max0 | plan/node.go:104-110 | the clamp never gives a negative value and keeps a non-negative one |
| PlanNode.Percentage | plan/node.go:113-116 | `part / total * 100` is non-finite exactly when the total is zero |
| PlanNode.PercentageScales | plan/node.go:113-116 | a finite percentage times the total is 100 times the part |
| PlanNode.PercentageBounded | plan/node.go:113-116 | a share between zero and a positive total is between 0 and 100 percent |
| PlanNode.SelfCostBounded | plan/node.go:87-111 | with non-negative costs, a node's own cost is between 0 and its total cost |
| PlanNode.SumMsEndOfSentinels | plan/node.go:90-94 | children without ANALYZE times (-1 each) add up to minus their number |
| PlanNode.SelfMsOfSentinels | plan/node.go:87-106 | sentinels are not filtered: a node and its k children without times give a self time of max(0, k-1) |
| PlanNode.Node.constructor | plan/explain.go:44-49 | a new node has the line's indent, the line number and the line, and Go's zero value everywhere else |
| PlanNode.Node.Init | plan/node.go:64-85 | every EXPLAIN ANALYZE field is at its sentinel, and the frame changes no other field |
| PlanNode.Node.CalculateSubNodeDiff | plan/node.go:87-111 | the node's own time is its end time less its children's, clamped at 0; its own cost is its total cost less its children's and its sub-plans' top nodes', clamped at 0; only these two fields change |
| PlanNode.Node.CalculatePercentage | plan/node.go:113-116 | both shares are the node's own figures scaled to the given totals; only these two fields change |
| PlanNode.Plan.constructor | plan/explain.go:60-70 | a plan has the given name, indent and line number, and a fresh top node with Go's zero value in every field (total cost 0, no links, no lines) |
| NodeLines.OperatorAndSlice | plan/plan.go:171-182 | the slice is -1 exactly when the operator text has no `  (slice` group, and is never below -1 |
| NodeLines.ScanTarget | plan/plan.go:184-199 | the object kind is INDEX exactly when the index-scan shape matches; it is TABLE exactly when only the plain-scan shape matches; otherwise it is empty, and then so is the name |
| NodeLines.ParseHeader | plan/plan.go:162-209 | the node line reads exactly when NODE matches it; the slice is at least -1; the object kind is INDEX, TABLE or empty, and it is empty exactly when the name is |
| NodeLines.FloatOr | plan/plan.go:247-250 | a captured float replaces the field only when it parses |
| NodeLines.IntOr | plan/plan.go:310-313 | a captured integer replaces the field only when it parses |
| NodeLines.Finish | plan/plan.go:425-427 | a missing first-row time (-1) takes the end time and a known one is kept; every other field is kept; so a first-row time still missing afterwards means the end time is missing too |
| NodeLines.AnalyzedIffMsToEnd | plan/plan.go:241-243 | a node is marked analyzed exactly when one of its lines contains `ms to end` |
| NodeLines.PlainExplainKeepsTiming | plan/plan.go:241-351 | without a `ms to end` line, the rows, time, worker, scan and segment fields keep their values, whatever else the lines say |
| NodeLines.FilterIsLast | plan/plan.go:407-412 | the last `Filter: ` line gives the filter; without one the filter keeps its value |
| NodeLines.MaxReadingKeepsActualRows | plan/plan.go:332-350 | on a line where `Max N rows (` matches, the actual rows are left to the two other shapes |
| NodeLines.ReadLine | plan/plan.go:238-418 | one line below the node leaves the node's reading fields at what the per-line specification gives |
| NodeLines.ReadLines | plan/plan.go:237-419 | the loop over the lines below the node leaves the fields at the fold of the per-line specification |
| NodeLines.ReadValues | plan/plan.go:158-430 | a node's lines read exactly when NODE matches its first line; after reading, a missing first-row time means a missing end time |
| NodeLines.ParseNodeExtraInfo | plan/plan.go:158-430 | succeeds exactly when NODE matches the node line; on success the header fields are what that line says and the rest is the fold of the lines below from the sentinels, then the fix-up; on failure the object and object type are cleared and every other field keeps its value |
| PlanTree.LastEnclosing | plan/explain.go:292-300 | the last node before the bound that lies above and to the left of a plan line, with no later such node; or none at all |
| PlanTree.LastHeaded | plan/explain.go:313-325 | the last plan in range whose line is right above the node line, two columns to its left; or none |
| PlanTree.LastShallower | plan/explain.go:334-343 | the last earlier node that is less indented, with no later such node; or none |
| PlanTree.Target | plan/explain.go:305-350 | a node goes to a plan it heads, or to an earlier, shallower node when it heads no plan, or else to the main plan |
| PlanTree.Hosts | plan/explain.go:288-301 | the host of every plan, by plan index |
| PlanTree.Targets | plan/explain.go:305-350 | where every node goes, by node index |
| PlanTree.FirstIndexOf | plan/explain.go:321 | the first index holding the value, with none before it; because the pass walks backwards, this is the node whose write to the top node lasts |
| PlanTree.EveryNodePlaced | plan/explain.go:305-350 | with the SubPlan-only search, the first node heads the main plan, every other node is the child of an earlier node or heads a SubPlan, and every node ends up in the tree |
| PlanTree.AsWrittenOrphansNode | plan/explain.go:313-325 | as written, the plan search can send a second node to the main plan, where the first node's later write replaces it, so that node is in no list |
| PlanTree.FindPlanHost | plan/explain.go:292-300 | the inner loop of the plan pass finds the last node above and to the left of the plan |
| PlanTree.FindTarget | plan/explain.go:313-349 | the inner loops of the node pass compute where the node goes, the plan search running down to plan `lo` (plan 0 as written) |
| PlanTree.SubPlansCollected | plan/explain.go:288-301 | the plan pass puts each node's hosted plans in front of its SubPlans, in text order |
| PlanTree.SubNodesCollected | plan/explain.go:334-343 | the node pass puts each node's children in front of its SubNodes, in text order |
| PlanTree.TopNodeIsFirst | plan/explain.go:318-323 | a plan's top node ends up being the first node that goes to it, if any |
| PlanTree.LinkPlans | plan/explain.go:288-301 | the plan pass leaves every node's SubPlans as the specification of the pass gives |
| PlanTree.PrependSubPlan | plan/explain.go:297 | the plan is put in front of its host's SubPlans, and no other list changes |
| PlanTree.PrependSubNode | plan/explain.go:339 | the node is put in front of its parent's SubNodes; the other lists and every top node stay |
| PlanTree.SetTopNode | plan/explain.go:321 | one plan's top node is replaced; the other top nodes and every SubNodes list stay |
| PlanTree.LinkNodes | plan/explain.go:305-350 | the node pass, with the plan search running down to plan `lo`, leaves every SubNodes list and top node as the specification of the pass gives, and no SubPlans list changes |
| PlanTree.SearchStartIrrelevant | plan/explain.go:313-325 | when no node sits on the line after the main plan, two columns in, the search as written sends every node where the SubPlan-only search does |
| PlanTree.BuildLinks | plan/explain.go:283-353 | both passes leave the links as the pass specifications give, for either search start; over a well-formed text every node is linked, with the search as written only when no node sits right under the main plan |
| PlanTree.EveryNodeLinked | plan/explain.go:305-350 | after both passes the first node is the main plan's top node, and every other node is among an earlier node's SubNodes or is the top node of the SubPlan it heads |
| PlanTree.BuiltTreeLinked | plan/explain.go:283-353 | both passes, with the SubPlan-only search, over a well-formed text leave every node linked into the tree |
| Checker.ScanAction | plan/checker.go:40-46 | ANALYZE for a table, REINDEX for an index, nothing for any other object |
| Checker.EstimatedRowsRule | plan/checker.go:36-62 | at most one warning; one exactly for a scan estimated at 1 row that was not analyzed, or that was analyzed and gave more than 1 row; its text depends on which case applies |
| Checker.NestedLoopRule | plan/checker.go:69-75 | a warning exactly when the operator contains `Nested Loop` |
| Checker.SpillRule | plan/checker.go:82-87 | a warning exactly when some segment spilled, naming the count |
| Checker.ScansRule | plan/checker.go:94-99 | a warning exactly when the node ran more than once, naming the count |
| Checker.PartitionShare | plan/checker.go:123-144 | a panic exactly when the count is non-zero and the total is zero; 100 or more warns first; zero warns "Zero partitions"; at most two warnings |
| Checker.ShareQuarter | plan/checker.go:140 | without overflow, the share reaches 25 exactly when the count is at least a quarter of the total |
| Checker.PartitionShareQuarter | plan/checker.go:123-144 | where `k*100` does not overflow, the number of warnings is one for 100 or more plus one for a quarter or more of the total |
| Checker.PartitionRule | plan/checker.go:106-169 | panics exactly on a Partition Selector or Dynamic Table Scan with a positive count out of a zero total; an Append over 100 or more children warns first |
| Checker.DataSkewRule | plan/checker.go:176-200 | from 10000 rows: with an average, warns exactly when the maximum exceeds half of average times workers and there are more than two workers; without one, warns exactly when rows were seen and a segment is known |
| Checker.FilterRule | plan/checker.go:210-217 | a warning exactly when the filter applies a function |
| Checker.NestedLoopAlwaysFlagged | plan/checker.go:30-219 | a Nested Loop is flagged even when a later check panics, because its rule runs first |
| Checker.QuietNode | plan/checker.go:30-219 | a node with no partition or skew figures, and an operator no rule looks for, gets no warning |
| Checker.CombinePanicked | plan/explain.go:457-459 | once a node check has panicked, the remaining checks change nothing |
| Checker.CatalogOutcomes | plan/checker.go:30-219 | the node catalog runs the seven checks in this order |
| Checker.NodeChecksInOrder | plan/checker.go:30-219 | the node checks' warnings are the seven rules' warnings in catalog order, cut off after the partition rule when it panics |
| Checker.CheckNode | plan/explain.go:457-459 | a node's warnings grow by what the catalog reports; the panic flag is the catalog's; no other field changes |
| Checker.MotionCount | plan/checker.go:231-240 | the motion count never exceeds the number of nodes |
| Checker.MotionCountAppend | plan/checker.go:236-240 | motions are counted part by part: the count over two consecutive node lists is the sum of the counts |
| Checker.MotionRule | plan/checker.go:230-246 | at most one warning, exactly when there are five or more motions |
| Checker.CheckMotionCount | plan/checker.go:230-246 | the counting loop gives the motion rule's warnings |
| Checker.SliceCount | plan/checker.go:254-261 | the slice count never exceeds the number of nodes |
| Checker.SliceCountCountsPositions | plan/checker.go:257-261 | the count is the number of node positions with a slice; repeated slice ids count again |
| Checker.SliceRule | plan/checker.go:253-267 | at most one warning, exactly when more than 100 nodes carry a slice |
| Checker.CheckSliceCount | plan/checker.go:253-267 | the counting loop gives the slice rule's warnings |
| Checker.FallbackRule | plan/checker.go:274-288 | at most one warning, exactly when the status names the legacy optimizer and some setting is `optimizer=on` |
| Checker.CheckPlannerFallback | plan/checker.go:274-288 | the search that stops at the first hit gives the fallback rule's warnings |
| Checker.GucRuleAppend | plan/checker.go:314-325 | the GUC warnings of consecutive settings are each part's warnings, in order |
| Checker.GucRuleOfOne | plan/checker.go:298-324 | a setting warns exactly when it is one of the ten known GUCs and is off its default, and then the warning names it |
| Checker.CheckGucs | plan/checker.go:295-325 | the loop over the settings gives the GUC rule's warnings |
| Checker.CheckChildPartitions | plan/checker.go:332-350 | each node's own warnings grow by one child-partition warning for each time the node is listed, and only when the optimizer setting is "on" |
| PlanExplain.BlockEnd | plan/explain.go:103-111 | the first line from the start that is not deeper than column 1; every line before it is deeper |
| PlanExplain.AppendTrimmedFold | plan/explain.go:103-111 | the slice statistics block appends the block's lines, each trimmed, in order |
| PlanExplain.SettingsOf | plan/explain.go:81-91 | on success there is one setting per `; ` piece |
| PlanExplain.MissingSeparatorFails | plan/explain.go:83-84 | a piece without `=` makes parseSettings panic |
| PlanExplain.FailureHasNoSeparator | plan/explain.go:83-84 | parseSettings panics only on a piece without `=` |
| PlanExplain.SettingsOfPieces | plan/explain.go:83-84 | each setting is its piece's text before the first `=`, then the text after it up to the next `=` |
| PlanExplain.NoOptimizerKept | plan/explain.go:88-90 | without an `optimizer` setting the optimizer value stays as it was |
| PlanExplain.LastOptimizerWins | plan/explain.go:88-90 | the last `optimizer` setting gives the optimizer value |
| PlanExplain.WithDetail | plan/explain.go:249-254 | a line below a node changes only the last node |
| PlanExplain.ReadNodeHeader | plan/explain.go:207-226 | fails exactly when the indentation rule is broken, with the right-trimmed line in the error; otherwise the node is appended, after the top plan "Plan" when it is the first node |
| PlanExplain.IndentError | plan/explain.go:211-217 | an error exactly when the first node is deeper than column 1, or a later node is at column 0 or 1 |
| PlanExplain.SliceStatsRead | plan/explain.go:100-112 | leaves the nodes and plans alone, marks the plan finished, and resumes at a line of the text |
| PlanExplain.StatementStatsRead | plan/explain.go:119-141 | leaves the nodes and plans alone, marks the plan finished, and resumes at a line of the text |
| PlanExplain.SettingsRead | plan/explain.go:76-92 | on success leaves the nodes, plans and position alone and marks the plan finished; any failure is a panic |
| PlanExplain.OptimizerRead | plan/explain.go:147-155 | on success leaves the nodes, plans and position alone and marks the plan finished; any failure is a panic |
| PlanExplain.RuntimeRead | plan/explain.go:160-169 | on success leaves the nodes, plans and position alone and marks the plan finished; any failure is a panic |
| PlanExplain.ReadSection | plan/explain.go:235-247 | a closing section marks the plan finished and touches neither nodes nor plans; any failure is a panic |
| PlanExplain.ParseLine | plan/explain.go:198-261 | the only errors are the two indentation errors and panics; an indentation error happens exactly on a node line that breaks the rule; a finished plan stays finished |
| PlanExplain.ReadLine | plan/explain.go:204-258 | only node, SubPlan and detail lines change the lists; only a node line that breaks the indentation rule gives an indentation error |
| PlanExplain.ParseFromStep | plan/explain.go:185-192 | a line read successfully hands over to the next line |
| PlanExplain.Unquoted | plan/explain.go:179-181 | every line goes through `checkQuote`, in place |
| PlanExplain.TopPlanText | plan/explain.go:220-223 | the implicit plan "Plan" is at column 0, on the first node's line |
| PlanExplain.FirstNodeSound | plan/explain.go:220-226 | the first node, with the top plan on its line, keeps the collected lists sound |
| PlanExplain.DetailSound | plan/explain.go:249-254 | a line added below the last node keeps the collected lists sound |
| PlanExplain.NodeHeaderMatches | plan/explain.go:207 | only a line NODE matches is read as a node line |
| PlanExplain.SoundStep | plan/explain.go:198-261 | one line keeps the collected lists sound |
| PlanExplain.ParseFromSound | plan/explain.go:185-192 | the rest of the text keeps the collected lists sound |
| PlanExplain.ParsedTextWellFormed | plan/explain.go:172-195 | every collected node line is one NODE matches, so reading it never fails; when no SubPlan line comes before the first node, the lines form a text the SubPlan-only search places completely |
| ExplainObject.ReadBlock | plan/explain.go:103-111 | the block loop feeds the deeper lines through the step and stops one line before the first shallow line |
| ExplainObject.InsertRoot | plan/explain.go:439-447 | a root with a non-zero total cost is unchanged; otherwise it takes its first child's startup and total cost, end time, time offset and analyze flag, and keeps everything else |
| ExplainObject.ReadNodeValues | plan/explain.go:428-431 | parseNodeExtraInfo on one node succeeds exactly when its lines read, and then leaves their reading in the node |
| ExplainObject.ReadAllMatches | plan/explain.go:426-432 | every node's lines read exactly when every node starts with a line NODE matches |
| ExplainObject.RollUpNode | plan/explain.go:450-460 | one turn of the second loop sets the node's own time and cost, their shares of the totals, and its warnings from the node checks |
| ExplainObject.Explain.constructor | plan/explain.go:19-36 | a new Explain is Go's zero value: nothing collected, no warnings |
| ExplainObject.Explain.CreateNode | plan/explain.go:40-52 | a fresh, unlinked node holding the line's indent, the line number and the line |
| ExplainObject.Explain.CreatePlan | plan/explain.go:60-70 | a fresh plan holding the trimmed line, its indent and the line number |
| ExplainObject.Explain.UnquoteLines | plan/explain.go:179-181 | every line loses pgAdmin's quotes |
| ExplainObject.Explain.ParseSliceStats | plan/explain.go:100-112 | the object ends as the collector's slice statistics step gives |
| ExplainObject.Explain.ParseStatementStats | plan/explain.go:119-141 | both figures start at -1, are read off the deeper lines below, and the line position resumes one line before the first shallow one |
| ExplainObject.Explain.ParseSettingsLine | plan/explain.go:76-92 | the settings grow by the parsed pieces and the optimizer takes the last `optimizer` value, or the call panics |
| ExplainObject.Explain.AddSettings | plan/explain.go:82-91 | the loop over the pieces appends one setting per piece, or panics on a piece without `=` |
| ExplainObject.Explain.ParseOptimizerLine | plan/explain.go:147-155 | the optimizer status is the text after `: `, or the call panics |
| ExplainObject.Explain.ParseRuntimeLine | plan/explain.go:160-169 | the runtime is the third word when it reads as a number, or the call panics |
| ExplainObject.Explain.ReadNodeLine | plan/explain.go:207-226 | the indentation rule is checked first; on success the node is appended, after the top plan when it is the first node |
| ExplainObject.Explain.CheckIndent | plan/explain.go:211-217 | the error is the indentation rule's |
| ExplainObject.Explain.AddTopPlan | plan/explain.go:220-223 | the plan "Plan" is appended, on the current line |
| ExplainObject.Explain.AddPlan | plan/explain.go:228-233 | the plan is appended at the end of the plans |
| ExplainObject.Explain.AddNode | plan/explain.go:226 | the node is appended at the end of the nodes |
| ExplainObject.Explain.AddDetail | plan/explain.go:249-254 | the last node gets the line; no other node changes |
| ExplainObject.Explain.ReadSectionKind | plan/explain.go:235-247 | a closing section line leaves the object as the collector's section step gives |
| ExplainObject.Explain.ReadSubPlanLine | plan/explain.go:228-233 | a SubPlan line appends one plan and changes nothing else the collector sees |
| ExplainObject.Explain.ReadDetailLine | plan/explain.go:249-254 | a line below a node goes to the last node, or is dropped when there is none |
| ExplainObject.Explain.ReadKind | plan/explain.go:204-258 | the object ends as the collector's step for that kind of line gives |
| ExplainObject.Explain.ParseCurrentLine | plan/explain.go:198-261 | parseline on the current line leaves the object as `ParseLine` gives, with the same error |
| ExplainObject.Explain.ReadLines | plan/explain.go:185-192 | the main loop leaves the object as `ParseFrom` gives, and stops at the first error |
| ExplainObject.Explain.ParseLines | plan/explain.go:172-195 | the lines are unquoted, then collected as `ParseFrom` gives from the first line |
| ExplainObject.Explain.BuildTree | plan/explain.go:283-353 | both passes, with the plan search as written (plan 0 included), leave the SubPlans, SubNodes and top nodes as the pass specifications give; over a well-formed text where no node sits right under the main plan every node is linked |
| ExplainObject.Explain.ReadNodes | plan/explain.go:426-432 | the first loop fails with "Unable to parse node" exactly when some node's lines do not read; otherwise every node holds its reading |
| ExplainObject.Explain.ReadAllNodes | plan/explain.go:425-432 | reading the nodes fails exactly when some node does not start with a line NODE matches |
| ExplainObject.Explain.FixInsertRoot | plan/explain.go:439-447 | only the first node can change, and it changes as `InsertRoot` says, using the second node when there is one |
| ExplainObject.Explain.RollUp | plan/explain.go:450-460 | no panic exactly when no node's checks panic; then every node has its own time and cost, their shares of the root's totals, and its checks' warnings |
| ExplainObject.Explain.RunExplainChecks | plan/explain.go:462-465 | the report's warnings grow by the motion, slice, fallback and GUC warnings in catalog order; the child-partition rule adds to nodes' own warnings |
| ExplainObject.Explain.Conclude | plan/explain.go:434-465 | after the INSERT fix and the roll-up, the only failure is a division by zero; on success the report's warnings are the explain checks' |
| ExplainObject.Explain.Analyze | plan/explain.go:422-468 | "Unable to parse node" exactly when some node's first line does not match NODE; the only other failure is a division by zero; on success the report's warnings are the explain checks' |
| ExplainObject.Explain.InitPlan | plan/explain.go:407-468 | the collector's error is returned as is; a text without a node gives "Could not find any nodes in plan"; otherwise the only possible failure is a division by zero, never "Unable to parse node"; on success the nodes are the collected ones |

## Left out

- `Render`, `PrintPlan` and the ANSI colours (plan/plan.go:793-890, plan/node.go:119-156, plan/explain.go:356-404). They only format console output.
- `InitFromStdin`, `InitFromString` and `InitFromFile` (plan/explain.go:472-533). They do file and stdin I/O and set the debug flag. `InitPlan` takes the report text as a parameter.
- `logDebugf` and the globals `logDebug`, `indentDepth` and `warningColor`. They only print.
- webservice.go. It is an HTTP front end and is not part of this model.
- The unused patterns `SLICESTATS_1` to `SLICESTATS_4`, the `SliceStat` type and the `ExecMemLine` field. Nothing reads them.
- The checks' names, descriptions, dates and scopes. They are display-only.
- plan/plan.go repeats the types and the `Explain` methods of plan/explain.go, plan/node.go and plan/checker.go. Only the rendering format strings differ. One copy is modelled; citations use whichever file holds the code modelled.
- A general regular-expression engine. Each expression is a matcher of its own. The claim that `Find` agrees with Go's leftmost-first search for literal-and-run shapes is argued in `pattern.dfy`, not proved against an engine.
- Go strings are bytes; here they are sequences of characters. `checkQuote` compares the second-to-last byte, which the model states on characters (see `PlanLines.CheckQuote`). The other shapes only look at ASCII characters.
- IEEE floating point. Costs, times and rows are `real`. Rounding, infinities and NaN are not modelled, except that a division by a zero total is `NonFinite`.
- GoStrings.ParseFloat: reads only plain decimal notation with an optional sign. Exponents, `Inf`, `NaN`, hexadecimal floats and underscores are read as syntax errors. Every number psql prints is plain decimal.
- GoStrings.ParseInt: covers base 10 with an optional sign, as the package calls it.
- A Go run-time panic (an index or slice out of range in the section parsers, an integer division by zero in the partition rule) stops the whole program. Here it is an error value, and the state the object is in after it is not specified.
- ExplainObject.Explain.InitPlan: on success it states how many nodes there are, not their contents. The node contents, tree links and warnings are stated by `Analyze`, `Conclude`, `BuildTree`, `ReadNodes`, `FixInsertRoot`, `RollUp` and `RunExplainChecks`, each over the state it starts from.
- ExplainObject.Explain.InitPlan: when nodes were collected, it says that a division by zero is the only possible failure, not when it happens; `Checker.PartitionRule` says when.
- ExplainObject.Explain.Analyze: its contract does not repeat the tree links; it calls `BuildTree` through `LinkTree`, a wrapper with a frame but no postcondition. `BuildTree`'s own contract states the links.
- ExplainObject.Explain.Conclude: on success it states the report's warnings; the node figures are stated by `FixInsertRoot` and `RollUp`. `RollUpAll` is a wrapper of `RollUp` without a postcondition.
- ExplainObject.Explain.BuildTree: it runs the plan search as written (`FirstPlanSearchedAsWritten`). So it promises that every node is linked only over texts where no node sits on the line after the main plan, two columns in. On other texts a node can be left out of the tree (see Findings). `PlanTree.BuildLinks` with `FirstPlanSearched` is the corrected builder.

Where the repository's documentation and its code differ, the model follows the code:

- `MemoryUsed` and `MemoryWanted` start at 0 (Go's zero value). They are -1 only after a Statement statistics block.
- `checkQuote` tests the second-to-last character for `"` and drops the last character.
- The two statistics blocks leave the line position unchanged when every remaining line is deeper than column 1. Those lines are then read again by the main loop.

## Findings

| source | as written | input that shows it | evidently intended | confidence | as-written member | corrected member |
|---|---|---|---|---|---|---|
| plan/explain.go:313-325 | the node pass looks for a plan the node heads among all plans, the implicit top plan `Plans[0]` included | a first node at column 0 on line 5, then a node at column 2 on line 6: the second node "heads" `Plans[0]` (0 == 2-2, 5 == 6-1) and becomes its top node; the backward pass then writes the first node there, and the second node is in no list at all | search SubPlans only (`Plans[1:]`); `Plans[0]` gets its top node from the fallback at line 348 | not executed | PlanTree.AsWrittenOrphansNode | PlanTree.EveryNodePlaced |
