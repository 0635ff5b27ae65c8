# Verification of the message analyzer, the viewer and the UDP transport

This project models, in Dafny, the parts of artdaq-mfextensions that decide
something, and proves what they decide.

The **Message Analyzer** is an event-driven rule engine. A *condition* accepts
some messages and files each one under a pair of strings, its source and its
target; every pair has a *cell* that is on or off according to "at least (at
most) n messages in T seconds". A *rule* combines the cells of several
conditions in a boolean expression and may restrict the combinations with a
WHERE clause such as `c1.$s = c2.$t`. The clause is compiled into a list of
*boxes*: one pattern per condition, each a pair of indices, -1 for any, -2 for
nil. Rules are re-evaluated only when a condition they mention has changed, and
their boxes recompiled only when a table they read has grown.

The main results, hardest first:

* `EndToEnd.EndToEnd` — which alarms the engine raises, in terms of what it
  received. At any moment of every reset-free run, a message or batch makes an
  enabled rule fire exactly when the messages heard so far turn one of its
  conditions and call for an alarm that the earlier firings let through. For a rule
  without counts this speaks of names alone: for some sources and targets that were
  heard, the WHERE clause holds of their names and the expression of what their
  messages say. With counts it speaks of the boxes and of hit maps built from the
  messages, whose counts `HeardCounts.CountHeard` gives over names. It joins the compiler, the caches, the queue, the cells, the hit maps
  and the evaluator. `HeardAlarms.RunLogHeard` and `HeardAlarms.RunReported` add the
  keys: the whole list of firings, the alarm table and the last alarm are those
  computed from the messages and commands.
* `Leftovers.RunLeft` — what the incremental engine leaves unevaluated after a step,
  exactly, and `Leftovers.LeftoverExample`, a run in which it misses a candidate.
* `WhereFacts.CompileLogical`, `WhereFacts.LiteralExact` — the WHERE compiler
  preserves the logical reading of every tree, for every table, unless a literal
  list names one condition by both its source and its target; `UnclashingExact`
  shows that this exception is exact, and `LiteralExact` says which tables still
  read such a list logically.
* `EngineFacts.RunFresh`, `EngineFacts.RunBoxesSafe` — in every reset-free run
  each rule's cached boxes equal recompiling from scratch, and are safe to index
  with. `Resets.ResetExact`, `Resets.ResetByDisjunct` and `Resets.ResetFresh` say,
  for every rule and every reset, exactly when the reset breaks this;
  `StaleBoxes.RunBoxesInGrid` and `StaleBoxes.StaleFiresExample` say what a stale
  box can and cannot do.
* `CellWindows.CellReading`, `CellWindows.CellHolds`, `EngineWindows.RunNow`,
  `EngineWindows.RunWindow`, `EngineMessages.RunHeard`, `HeardMaps.ViewSame`,
  `EngineWindows.NoStuckCell` — the bounded buffer and the timing queue together
  count a sliding window over the messages accepted for a pair of names; status and
  buffer size of every cell at any moment, by hits and batches alone; a persistent
  cell remembers that some window, or some batch, once decided it
  (`EngineWindows.OnUntilReset`); and no cell gets stuck. `CellWindows.AtLeastN`,
  `CellWindows.AtMostN` and `HeardMaps.ConfiguredHeard` say it with the number that
  the condition is configured with.
* `RuleFacts.EvaluateMeaning` — a rule fires iff some candidate fires, and records
  the first one in list-then-lexicographic order; `EngineAlarms.RunAlarms` — the
  alarm tables over every run.
* `Rendering.RunRenders` — an alarm's message can be rendered exactly when the
  evaluation that raised the alarm reached every condition the message refers to
  and there is something to show for each.
* `EngineObject.RuleEngine` — the engine with its notification lists, proved equal
  to the state machine, evaluating each affected rule exactly once.
* `Hitmaps.CaptureRefinesMap` and the class `Hitmaps.HitMap` — a growing grid that
  refines a map from string pairs to cells.
* `RichMessage`, `ViewerPool`, `Throttle`, `UdpWire`, `UdpReceive`, `UdpBackoff` —
  message templates, the viewer's pool and indexes, the throttle's budgets, the
  UDP round trip, and the error back-off.

## How it is put together

Every object the program updates in place is a class whose methods follow the
original's branches and loops, proved against a step function on values; theorems
over runs are about the step functions. `Cells.Cell`, `Hitmaps.HitMap`,
`RuleEval.Rule`, `EngineObject.RuleEngine`, `Registration.RuleParts`,
`Throttle.Limiter`, `ViewerPool.Viewer`, `UdpWire.Sender`,
`UdpBackoff.Destination` and `RichMessage.RichMsg` are these classes. A run is a
list of actions (`Engine.Action`, `ViewerPool.Action`, `Throttle.Event`, a list of
send outcomes), taken in any order; `feed` and one event batch are atomic. The
current second is a parameter, message times are seconds, a rule id stands for the
rule's address, and what a condition's filters and regex make of a message is a
parameter of the message.

Where the code does something other than one might expect, the model does the
same, and the theorems say so:

* In `c.$s = c.$t = 'x'` the second slot overwrites the first. The compiler is
  proved exact for the overwriting reading of every tree (`WhereMeaning.CompileMeaning`),
  and a literal list is read logically exactly when some table is empty or lacks the
  literal, or every slot lost that way has a table of one entry
  (`WhereFacts.LiteralExact`, `WhereFacts.ClashExample`).
* Merging with an empty left list means "no constraint yet". `FoldAndMeaning` shows
  why stopping at the first empty result makes this right.
* A refiring keeps the stored time, so the holdoff always runs from the first
  firing (`RuleFacts.RefireSpacing`).
* Resetting a rule or a condition empties tables but no boxes: every rule that
  shares a reset condition may be left with stale ones (`Resets.ResetExact`,
  `Resets.ResetFreshness`, `Resets.ResetStaleExample`). Stale boxes stay inside the
  grids, which a reset does not shrink (`StaleBoxes.AccessInGrid`), but a rule may
  fire on one whose names are gone (`StaleBoxes.StaleFiresExample`).
* The short-circuit evaluation leaves the conditions it did not reach nil in the
  alarm key, and looking up a name for nil throws: `Rendering.RendersMeaning`,
  `Rendering.SecondUnreachedExample`.
* A persistent at-most cell turns on at the first batch that finds its window
  thinned out, so its status depends on when the batches ran; the batches are part
  of a cell's past (`CellWindows.LatchesOn`).
* A message that completes a box without changing a status leaves the rule
  unevaluated (`Leftovers.LeftoverExample`).
* An at-most cell turns on when the oldest buffered message expires, not at its
  first hit (`CellWindows.AtMostOffExample`); `AtMostWindow` gives the exact status.
* The UDP receiver steps over the sequence number and relies on `stoi` rejecting
  the host name: `UdpReceive.HostRecovered` is the exact condition, `RoundTrip` and
  `NumericHost` the two outcomes. The sequence number itself is never recovered,
  and one trailing bar of the body is lost.
* The receiver's search for the time never ends on a token without a time that ends
  in something other than a digit (`UdpReceive.ScanMeaning`, `UdpReceive.ReadStuck`);
  the packet check does not exclude such packets (`UdpReceive.ValidStuckExample`).
* The pool is trimmed before a new message is indexed; the invariant of
  `ViewerPool.Viewer.TrimMsgPool` accounts for that.

## Model

| member | source | states |
|---|---|---|
| EndToEnd.EndToEnd | ErrorHandler/MessageAnalyzer/ma_rule_engine.cpp:115-210 | the alarms that feeding a message or running a batch raises, at any moment of every time-ordered run whose boxes are up to date, reset-free ones included: a rule, counts and all, fires iff the last command left it enabled, the messages heard turn one of its conditions, and some assignment of some box its clause compiles to raises an alarm over the hit maps the messages give; a plain rule, iff for some sources and targets heard the WHERE clause holds of their names, the expression of what their messages say, and the earlier firings let the key through |
| EndToEnd.PlainCalled | ErrorHandler/MessageAnalyzer/ma_rule.cpp:119-201 | for a plain rule the boxes and indices can be left out: some names that were heard call for the alarm |
| EndToEnd.EndToEndExample | ErrorHandler/MessageAnalyzer/ma_rule_engine.cpp:149-210 | the theorem applied: a rule over a condition that is not persistent and needs two messages fires at the second, before any batch |
| NamedRules.WhereNames | ErrorHandler/MessageAnalyzer/ma_domain_cond.cpp:24-150 | over table indices a clause says what it says of the names: equal strings |
| NamedRules.TrueSays | ErrorHandler/MessageAnalyzer/ma_boolean_cond.cpp:76-92 | a plain expression is the boolean combination of its conditions' statuses |
| NamedRules.KeyMeaning | ErrorHandler/MessageAnalyzer/ma_boolean_cond.cpp:85-106 | the alarm key of a plain expression by statuses alone: the value of each condition a short-circuit reading looks at, nil for the rest |
| HeardMaps.CellHeard | ErrorHandler/MessageAnalyzer/ma_cell.cpp:21-102 | the status, the buffer size and the newest message of the cell of two names by the messages heard for them and the batches, at any moment of every ordered run |
| HeardMaps.RunTables | ErrorHandler/MessageAnalyzer/ma_hitmap.cpp:40-90 | the tables of every run are those of the names heard, in order of first hearing |
| HeardMaps.ViewSame | ErrorHandler/MessageAnalyzer/ma_hitmap.cpp:32-251 | in every ordered run the hit maps of a rule agree with those built from the messages, in tables, statuses and buffer sizes |
| HeardMaps.SameCount | ErrorHandler/MessageAnalyzer/ma_hitmap.cpp:216-251 | a count depends on a hit map only through tables, statuses and buffer sizes |
| HeardCounts.CountHeard | ErrorHandler/MessageAnalyzer/ma_hitmap.cpp:216-251 | a count over names, in every ordered run: how many sources heard have, with some target heard, messages that turn the cell on; targets likewise; or the messages held for all pairs |
| HeardCounts.TwoSourcesExample | ErrorHandler/MessageAnalyzer/ma_hitmap.cpp:229-248 | two sources and one target with both cells on: two sources and one target |
| HeardMaps.SameRaises | ErrorHandler/MessageAnalyzer/ma_rule.cpp:116-201 | so does whether a rule has an alarm to raise, counts included |
| HeardAlarms.RunLogHeard | ErrorHandler/MessageAnalyzer/ma_rule_engine.cpp:115-210 | all firings of every rule, their keys and times, in runs whose boxes stay up to date: exactly those computed from messages and commands |
| HeardAlarms.RunReported | ErrorHandler/MessageAnalyzer/ma_rule.cpp:201-241 | in every ordered reset-free run the alarm table, the count and the last alarm of a rule are those of the firings the messages call for |
| EndToEnd.FlipHeard | ErrorHandler/MessageAnalyzer/ma_hitmap.cpp:32-153 | at any moment, a condition counts as flipped iff the messages heard change its status for some pair of names |
| EndToEnd.RunEnabled | ErrorHandler/MessageAnalyzer/ma_rule_engine.h:94-98 | a rule is enabled iff the last command for it, if any, said so |
| EngineFirings.RunFiring | ErrorHandler/MessageAnalyzer/ma_rule_engine.cpp:115-210 | the alarms of every message and batch in such a run: a rule fires iff it is subscribed to a condition the step flips, is enabled, and some assignment of some box its clause compiles to raises an alarm on the hit maps after the step; for plain rules, iff some in-range choice satisfies the clause as written and can fire |
| EngineFirings.FlipsMeaning | ErrorHandler/MessageAnalyzer/ma_rule_engine.cpp:127-143 | a condition is flipped by a step iff some cell of it is on after and was not before, or the other way round |
| EngineFirings.PlainRaises | ErrorHandler/MessageAnalyzer/ma_rule.cpp:119-201 | for a plain rule the boxes can be left out: some box raises an alarm iff some in-range choice is fireable |
| Leftovers.RunLeft | ErrorHandler/MessageAnalyzer/ma_rule_engine.cpp:149-210 | what a step leaves unevaluated: after an evaluation without alarm nothing; after an alarm exactly another choice; without evaluation what was left before, and choices using a name new to the tables |
| Leftovers.LeftoverExample | ErrorHandler/MessageAnalyzer/ma_rule_engine.cpp:171-178 | a run in which a box is completed without a status change: a candidate that could fire is not looked at |
| Leftovers.TablesGrow | ErrorHandler/MessageAnalyzer/ma_hitmap.cpp:40-90 | a step keeps all names and gives new ones new indices |
| Leftovers.AfterRecord | ErrorHandler/MessageAnalyzer/ma_rule.cpp:201-241 | what can still fire once a key is recorded; a refired key can fire again at once |
| WhereFacts.HoldsGrown | ErrorHandler/MessageAnalyzer/ma_domain_cond.cpp:24-150 | new names do not change what a clause says about old indices |
| Domains.IntersectDomain | ErrorHandler/MessageAnalyzer/ma_domain_ops.h:234-258 | the in-place intersection: throws exactly for two non-null domains of different sizes, gives the null domain when either is null, else the intersection |
| Domains.DomainIsNull | ErrorHandler/MessageAnalyzer/ma_domain_ops.h:314-322 | null iff empty or some pattern is nil |
| Domains.AndOpMeaning | ErrorHandler/MessageAnalyzer/ma_domain_ops.h:183-192 | an index matches the combined pattern iff it matches both, for any and nil included |
| Domains.IntersectCondMeaning | ErrorHandler/MessageAnalyzer/ma_domain_ops.h:194-204 | a pair lies in the intersection iff it lies in both |
| Domains.IntersectMeaning | ErrorHandler/MessageAnalyzer/ma_domain_ops.h:234-258 | an assignment lies in the intersection of two boxes iff it lies in both; the result is the null box or non-null and of the same width |
| Domains.NullMeaning | ErrorHandler/MessageAnalyzer/ma_domain_ops.h:309-322 | a box is null exactly when no concrete assignment lies in it |
| Domains.NullIsEmpty | ErrorHandler/MessageAnalyzer/ma_domain_ops.h:309-322 | no assignment lies in a null box |
| WhereEval.Expand | ErrorHandler/MessageAnalyzer/ma_domain_cond.cpp:170-173 | the in-place expansion repeats every box once per worksheet box |
| WhereEval.IntersectCyclic | ErrorHandler/MessageAnalyzer/ma_domain_cond.cpp:175-183 | walking the expanded list with a wrapping worksheet iterator gives the pairwise products in row-major order |
| WhereEval.RemoveNulls | ErrorHandler/MessageAnalyzer/ma_domain_cond.cpp:186-186 | removes exactly the null boxes, keeping the order |
| WhereEval.MergeInPlace | ErrorHandler/MessageAnalyzer/ma_domain_cond.cpp:152-189 | expand, intersect and remove in place compute the merge of the two lists |
| WhereMeaning.ProductsOrder | ErrorHandler/MessageAnalyzer/ma_domain_cond.cpp:168-183 | the product of the i-th and j-th box stands at position i * width + j: row-major order |
| WhereMeaning.ProductsLength | ErrorHandler/MessageAnalyzer/ma_domain_cond.cpp:168-173 | there is one product per pair of boxes |
| WhereMeaning.ProductsMeaning | ErrorHandler/MessageAnalyzer/ma_domain_cond.cpp:168-183 | the products denote the intersection of the two unions |
| WhereMeaning.DropNullsMeaning | ErrorHandler/MessageAnalyzer/ma_domain_cond.cpp:186-186 | removing null boxes does not change the union |
| WhereMeaning.MeetMeaning | ErrorHandler/MessageAnalyzer/ma_domain_cond.cpp:152-189 | the merge of two non-empty lists denotes the intersection of their unions |
| WhereMeaning.MeetNonNull | ErrorHandler/MessageAnalyzer/ma_domain_cond.cpp:186-186 | the merge contains no null box |
| WhereMeaning.AndMergeMeaning | ErrorHandler/MessageAnalyzer/ma_domain_cond.cpp:155-166 | an empty left list is read as no constraint, an empty right list as no solution |
| WhereEval.EvaluateLiteral | ErrorHandler/MessageAnalyzer/ma_domain_cond.cpp:40-75 | the literal form: overwrites one pattern per slot, nothing kept if a table does not know the literal |
| WhereEval.EvaluateName | ErrorHandler/MessageAnalyzer/ma_domain_cond.cpp:97-142 | one candidate string: intersects slot by slot and gives up at an unknown name or a null pattern |
| WhereEval.EvaluateNames | ErrorHandler/MessageAnalyzer/ma_domain_cond.cpp:85-143 | the non-literal form: one box per name of the first slot that survives; the boxes stand in ascending character order of the names they belong to |
| WhereEval.EvaluateCond | ErrorHandler/MessageAnalyzer/ma_domain_cond.cpp:24-150 | one condition of a conjunction merged into the domains passed in |
| WhereEval.EvaluateAnd | ErrorHandler/MessageAnalyzer/ma_domain_andexpr.cpp:11-27 | the conjunction loop with its early exit, appended to the list passed in |
| WhereEval.EvaluateExpr | ErrorHandler/MessageAnalyzer/ma_domain_expr.cpp:10-16 | the disjunction loop appends the compiled boxes to the list passed in |
| WhereMeaning.LiteralBoxMeaning | ErrorHandler/MessageAnalyzer/ma_domain_cond.cpp:46-71 | the literal box exists iff every slot knows the literal, and constrains exactly the last slot of each condition |
| WhereMeaning.NameBoxMeaning | ErrorHandler/MessageAnalyzer/ma_domain_cond.cpp:97-142 | the box of a string denotes the assignments at which all slots hold that string |
| WhereMeaning.NameBoxesMeaning | ErrorHandler/MessageAnalyzer/ma_domain_cond.cpp:93-143 | the boxes of the non-literal form denote: some listed string is held by all slots |
| WhereMeaning.EqualBoxesOrder | ErrorHandler/MessageAnalyzer/ma_domain_cond.cpp:93-143 | each box of the non-literal form admits exactly the assignments where all slots hold one name, and these names ascend, character by character |
| Ordering.LessMeaning | ErrorHandler/MessageAnalyzer/ma_domain_cond.cpp:93-94 | the key order: at the first place where two strings differ, the lesser one has ended or has the smaller character |
| WhereMeaning.EqualMeaning | ErrorHandler/MessageAnalyzer/ma_domain_cond.cpp:38-144 | both forms of an equality against their reading |
| WhereMeaning.CondMeaning | ErrorHandler/MessageAnalyzer/ma_domain_cond.cpp:24-150 | the compiled condition denotes what the condition says |
| WhereMeaning.FoldAndMeaning | ErrorHandler/MessageAnalyzer/ma_domain_andexpr.cpp:15-21 | folding conditions with the empty-means-no-constraint merge is right because the loop stops at the first empty result |
| WhereMeaning.OrMeaning | ErrorHandler/MessageAnalyzer/ma_domain_expr.cpp:10-16 | concatenation denotes the disjunction |
| WhereMeaning.CompileMeaning | ErrorHandler/MessageAnalyzer/ma_domain_expr.cpp:10-16 | for every tree and all tables, the boxes denote exactly the assignments satisfying the overwriting reading |
| WhereFacts.CompileLogical | ErrorHandler/MessageAnalyzer/ma_domain_cond.cpp:24-150 | for every tree without a clashing literal list, the boxes denote exactly the logical reading: OR of ANDs of equal names |
| WhereFacts.LiteralExact | ErrorHandler/MessageAnalyzer/ma_domain_cond.cpp:53-71 | a literal list is read logically by given tables iff some table is empty or lacks the literal or every overwritten slot has a table of one entry |
| WhereFacts.UnclashingExact | ErrorHandler/MessageAnalyzer/ma_domain_cond.cpp:53-71 | a literal list is read logically whatever the tables hold iff it names no condition by both source and target |
| WhereFacts.ClashCounterexample | ErrorHandler/MessageAnalyzer/ma_domain_cond.cpp:68-68 | for every clashing list, tables and an assignment that is let through although a slot names something else |
| WhereFacts.LiteralKept | ErrorHandler/MessageAnalyzer/ma_domain_cond.cpp:53-71 | the direction that keeps the logical reading |
| WhereFacts.LiteralCounterexample | ErrorHandler/MessageAnalyzer/ma_domain_cond.cpp:68-68 | otherwise constructs an in-range assignment that is let through although an overwritten slot names something else |
| WhereFacts.ClashExample | ErrorHandler/MessageAnalyzer/ma_domain_cond.cpp:68-68 | a concrete clash: the compiled box contains an assignment the written clause excludes |
| WhereFacts.UnclashingKept | ErrorHandler/MessageAnalyzer/ma_domain_cond.cpp:53-71 | lists that name no condition twice with different arguments lose nothing |
| WhereFacts.ReadingsAgree | ErrorHandler/MessageAnalyzer/ma_domain_cond.cpp:24-150 | on trees without clashes both readings agree everywhere |
| WhereFacts.CompileSound | ErrorHandler/MessageAnalyzer/ma_domain_cond.cpp:24-150 | every compiled box is non-null, one pattern per condition, with every concrete index in its table |
| WhereFacts.CompileFrame | ErrorHandler/MessageAnalyzer/ma_domain_cond.cpp:60-121 | the compiled list depends only on the tables of the slots the clause mentions |
| WhereFacts.CompileEmpty | ErrorHandler/MessageAnalyzer/ma_domain_cond.cpp:85-95 | with empty tables nothing is compiled |
| Cells.Cell.Hit | ErrorHandler/MessageAnalyzer/ma_cell.cpp:21-85 | a hit: new buffer, status, next event time, and the event pushed, against the step function |
| Cells.Cell.PopOld | ErrorHandler/MessageAnalyzer/ma_cell.cpp:36-42 | both pop loops keep the messages within the timespan, at most the trigger count of them |
| Cells.Cell.PopExpired | ErrorHandler/MessageAnalyzer/ma_cell.cpp:36-38 | drops exactly the leading expired messages; the newest keeps the loop from emptying the buffer |
| Cells.Cell.PopExcess | ErrorHandler/MessageAnalyzer/ma_cell.cpp:40-42 | keeps the newest messages up to the trigger count |
| Cells.Cell.Decide | ErrorHandler/MessageAnalyzer/ma_cell.cpp:44-84 | the new status, whether it flipped, and the event that is scheduled |
| Cells.Cell.Event | ErrorHandler/MessageAnalyzer/ma_cell.cpp:87-102 | an event acts only with the current stamp, and turns an at-least cell off unless persistent, an at-most cell on |
| Cells.Cell.Reset | ErrorHandler/MessageAnalyzer/ma_cell.cpp:104-109 | back to a fresh cell |
| Cells.TimingEvents.Push | ErrorHandler/MessageAnalyzer/ma_timing_event.h:41-55 | adds the event to the queue |
| CellWindows.CountSuffix | ErrorHandler/MessageAnalyzer/ma_cell.cpp:36-47 | at least m hits lie in a window iff the m-th most recent one does |
| CellWindows.HitTail | ErrorHandler/MessageAnalyzer/ma_cell.cpp:26-42 | after a hit the buffer holds the newest hits of the window, capped at the trigger count |
| CellWindows.SettleKeeps | ErrorHandler/MessageAnalyzer/ma_cell.cpp:44-84 | deciding the status keeps the invariant between buffer, status, stamp and queue |
| CellWindows.HitKeeps | ErrorHandler/MessageAnalyzer/ma_cell.cpp:21-85 | a hit keeps the invariant |
| CellWindows.BatchKeeps | ErrorHandler/MessageAnalyzer/ma_cell.cpp:87-102 | a batch that delivers the due events, and any others it may leave queued, keeps the invariant, statuses included; it records what the batch found |
| CellWindows.LatchesOn | ErrorHandler/MessageAnalyzer/ma_cell.cpp:87-102 | a batch turns an off at-most cell on iff by the second before it the window had lost a hit and holds at most the allowed number |
| CellWindows.StampAfter | ErrorHandler/MessageAnalyzer/ma_cell.cpp:47-84 | a hit never schedules an event for its own second or before |
| CellWindows.ResetKeeps | ErrorHandler/MessageAnalyzer/ma_cell.cpp:104-109 | a reset keeps the invariant, with old events still queued |
| CellWindows.AtLeastWindow | ErrorHandler/MessageAnalyzer/ma_cell.cpp:21-102 | at least n in T seconds: once settled at T, the cell is on iff at least n hits lie in the window |
| CellWindows.AtMostWindow | ErrorHandler/MessageAnalyzer/ma_cell.cpp:21-102 | at most: the exact status of a settled cell in terms of the trigger count |
| CellWindows.AtLeastN | ErrorHandler/MessageAnalyzer/ma_condition.cpp:19-19 | a condition configured with at least n: its settled cell is on iff the window holds at least n hits; persistent, iff some hit was the n-th within the timespan |
| CellWindows.AtMostN | ErrorHandler/MessageAnalyzer/ma_condition.cpp:19-19 | a condition configured with at most n: its settled cell is on iff it was hit and the window holds at most n, exactly n included, and fewer than at the last hit; persistent, iff some batch found that |
| CellWindows.AtMostFills | ErrorHandler/MessageAnalyzer/ma_condition.cpp:19-19 | up to n + 1 hits within the timespan fill an at-most-n cell, and the event of the expiry of the oldest turns it on |
| CellWindows.ReadsConfigured | ErrorHandler/MessageAnalyzer/ma_condition.cpp:19-19 | the reading of every kind of cell at a closed second, in terms of the configured number |
| HeardMaps.ConfiguredHeard | ErrorHandler/MessageAnalyzer/ma_condition.cpp:19-19 | in every ordered run that closed second T, the status of the cell of two names by the messages heard and the configured number |
| CellWindows.AtMostOffExample | ErrorHandler/MessageAnalyzer/ma_cell.cpp:62-76 | a concrete at-most cell that is off with fewer hits than allowed |
| CellWindows.TailCount | ErrorHandler/MessageAnalyzer/ma_cell.cpp:36-47 | the buffer size is the window count at the last hit, capped at the trigger count |
| CellWindows.TurnsOn | ErrorHandler/MessageAnalyzer/ma_cell.cpp:36-49 | unless persistent and on already, an at-least cell is on after a hit iff the window of the hit holds the required number |
| CellWindows.HitKeepsCore | ErrorHandler/MessageAnalyzer/ma_cell.cpp:21-85 | the part of the invariant about buffer, stamp and queue |
| CellWindows.CellReading | ErrorHandler/MessageAnalyzer/ma_cell.cpp:21-102 | the exact status of every cell by its hits and batches alone, at any moment: persistent, iff some hit completed the required number or some batch found a lost hit; else by the last hit and the batches since; once settled at T, by the window ending there |
| CellWindows.CellHolds | ErrorHandler/MessageAnalyzer/ma_cell.cpp:26-47 | the size of every buffer by its hits and batches, and its newest message: the capped window count, which a persistent cell keeps from the moment it turned on, and the last hit |
| CellWindows.TurnsOff | ErrorHandler/MessageAnalyzer/ma_cell.cpp:87-102 | a batch turns an at-least cell that is not persistent off iff by the second before it the window had lost a hit |
| EngineWindows.OnUntilReset | ErrorHandler/MessageAnalyzer/ma_cell.cpp:30-34 | in every run a persistent cell that is on stays on, whatever follows, until its condition is reset |
| CellWindows.PersistentStaysOff | ErrorHandler/MessageAnalyzer/ma_cell.cpp:87-102 | no queued event turns on a persistent at-least cell that is off |
| Hitmaps.RegisterTableOk | ErrorHandler/MessageAnalyzer/ma_hitmap.cpp:40-90 | registration keeps a table a bijection onto its indices |
| Hitmaps.RegisterAppends | ErrorHandler/MessageAnalyzer/ma_hitmap.cpp:40-64 | registration leaves the table alone or appends the name at the next index, which it returns |
| Hitmaps.AxisFacts | ErrorHandler/MessageAnalyzer/ma_hitmap.cpp:40-90 | old names keep their indices, at most one name is new, the index belongs to that name only, and the change flag says which |
| Hitmaps.CaptureOk | ErrorHandler/MessageAnalyzer/ma_hitmap.cpp:32-116 | a capture keeps the hit map well formed and touches a cell inside the tables |
| Hitmaps.CaptureBounds | ErrorHandler/MessageAnalyzer/ma_hitmap.cpp:92-105 | a capture outgrows either table by at most one index |
| Hitmaps.CaptureCells | ErrorHandler/MessageAnalyzer/ma_hitmap.cpp:112-115 | a capture changes exactly one cell of the grid, by one hit |
| Hitmaps.CaptureRefinesMap | ErrorHandler/MessageAnalyzer/ma_hitmap.cpp:32-116 | seen as a map from name pairs to cells, a capture hits the pair of its keys and changes nothing else; tables only grow |
| Hitmaps.NameAt | ErrorHandler/MessageAnalyzer/ma_hitmap.cpp:142-174 | get_source and get_target: throws for nil; for any the name that comes first, character by character; else the name whose index it is |
| Hitmaps.FindInverse | ErrorHandler/MessageAnalyzer/ma_hitmap.cpp:123-139 | names and indices are mutual inverses; nil is returned exactly for unknown names |
| Hitmaps.HitMap.Capture | ErrorHandler/MessageAnalyzer/ma_hitmap.cpp:32-116 | the grid follows the model: tables, cells, flags and the queued event |
| Hitmaps.HitMap.CaptureInGrid | ErrorHandler/MessageAnalyzer/ma_hitmap.cpp:40-115 | the same, given that the tables fit the capacities |
| Hitmaps.HitMap.Locate | ErrorHandler/MessageAnalyzer/ma_hitmap.cpp:40-90 | both lookups with their change flags |
| Hitmaps.HitMap.Grow | ErrorHandler/MessageAnalyzer/ma_hitmap.cpp:92-110 | growth by a fixed increment makes room for the index and preserves every cell; new cells are fresh |
| Hitmaps.HitMap.GrowAndKeep | ErrorHandler/MessageAnalyzer/ma_hitmap.cpp:92-110 | growth keeps the grid showing the model |
| Hitmaps.HitMap.Knock | ErrorHandler/MessageAnalyzer/ma_hitmap.cpp:112-115 | hits one cell of the grid and no other |
| Hitmaps.HitMap.Event | ErrorHandler/MessageAnalyzer/ma_hitmap.cpp:118-121 | an event on one cell |
| Hitmaps.HitMap.Reset | ErrorHandler/MessageAnalyzer/ma_hitmap.cpp:22-30 | clears both tables and every cell, keeping the capacities |
| Rules.AlarmCount | ErrorHandler/MessageAnalyzer/ma_hitmap.cpp:216-251 | throws exactly for a nil domain; else, by kind, the sources of the range with an on cell among its targets, the targets likewise, or the messages of all its cells |
| Rules.SumLaws | ErrorHandler/MessageAnalyzer/ma_hitmap.cpp:223-228 | the sum of messages: nothing over no cells, the buffer size over one, additive however sources or targets are divided |
| Rules.CompareMeaning | ErrorHandler/MessageAnalyzer/ma_boolean_cond.cpp:8-26 | below, at and above the right-hand value exactly the expected operators hold |
| Rules.CountMessages | ErrorHandler/MessageAnalyzer/ma_hitmap.cpp:223-228 | the sum of the buffered messages over the ranges |
| Rules.CountSources | ErrorHandler/MessageAnalyzer/ma_hitmap.cpp:229-238 | the number of sources with some cell on |
| Rules.CountTargets | ErrorHandler/MessageAnalyzer/ma_hitmap.cpp:239-248 | the number of targets with some cell on |
| Rules.MarkLeaf | ErrorHandler/MessageAnalyzer/ma_boolean_cond.cpp:85-106 | what evaluating one leaf does to the alarm key: a status fills an unset place, a count overwrites it with the box pattern |
| Rules.EvaluateCond | ErrorHandler/MessageAnalyzer/ma_boolean_cond.cpp:67-147 | one condition: its truth and its effect on the alarm tuple |
| Rules.EvaluateAnd | ErrorHandler/MessageAnalyzer/ma_boolean_andexpr.cpp:12-20 | the conjunction with early exit: its truth, and the alarm tuple of exactly the leaves visited |
| Rules.EvaluateExpr | ErrorHandler/MessageAnalyzer/ma_boolean_expr.cpp:12-20 | the disjunction with early exit: its truth, and the alarm tuple of exactly the leaves visited |
| RuleSearch.PairsMeaning | ErrorHandler/MessageAnalyzer/ma_rule.cpp:125-138 | the loops visit exactly the allowed pairs, in lexicographic order: the box range for a primitive condition, the nil pair otherwise |
| RuleSearch.FindMeaning | ErrorHandler/MessageAnalyzer/ma_rule.cpp:116-159 | the nested search returns the lexicographically first candidate that passes, or none does |
| RuleSearch.FindInMeaning | ErrorHandler/MessageAnalyzer/ma_rule.cpp:133-156 | the same for the loops of one level |
| RuleEval.Rule.EvaluateDomain | ErrorHandler/MessageAnalyzer/ma_rule.cpp:104-114 | clears and recompiles the boxes |
| RuleEval.Rule.BooleanEvaluate | ErrorHandler/MessageAnalyzer/ma_rule.cpp:191-253 | fires iff the expression holds and the key is new or past the holdoff of a repeating rule; records the firing, keeping a stored time; the alarm tuple is reset |
| RuleEval.Rule.RecursiveEvaluate | ErrorHandler/MessageAnalyzer/ma_rule.cpp:116-159 | the recursion fires iff the search finds an assignment, and records that one |
| RuleEval.Rule.EvaluateSource | ErrorHandler/MessageAnalyzer/ma_rule.cpp:135-155 | the inner loop over the targets of one source |
| RuleEval.Rule.Descend | ErrorHandler/MessageAnalyzer/ma_rule.cpp:144-154 | one level further down, or the boolean expression |
| RuleEval.Rule.Evaluate | ErrorHandler/MessageAnalyzer/ma_rule.cpp:161-189 | the loop over the boxes; a disabled rule does nothing |
| RuleEval.Rule.Reset | ErrorHandler/MessageAnalyzer/ma_rule.cpp:265-278 | empties the alarm table, the count and the last alarm, and keeps the boxes |
| RuleFacts.FirstAlarmMeaning | ErrorHandler/MessageAnalyzer/ma_rule.cpp:170-186 | the first box that can fire, and its lexicographically first assignment |
| RuleFacts.EvaluateMeaning | ErrorHandler/MessageAnalyzer/ma_rule.cpp:161-253 | fires iff enabled and some box holds a candidate that can fire; records exactly the earliest such key, else changes nothing |
| RuleFacts.CandidateMeaning | ErrorHandler/MessageAnalyzer/ma_rule.cpp:127-138 | for sound boxes and primitive conditions, the candidates are the in-range points of the box |
| RuleFacts.ExpectedMeaning | ErrorHandler/MessageAnalyzer/ma_rule.cpp:54-56 | an assignment lies in the boxes a rule should hold iff it satisfies the clause; without a clause, always |
| RuleFacts.RaisesMeaning | ErrorHandler/MessageAnalyzer/ma_rule.cpp:161-189 | what raising an alarm means for plain expressions |
| RuleFacts.PlainFire | ErrorHandler/MessageAnalyzer/ma_rule.cpp:191-201 | without counts, firing does not depend on the box |
| RuleFacts.PlainRuleMeaning | ErrorHandler/MessageAnalyzer/ma_rule.cpp:161-253 | with up-to-date boxes, a plain rule fires iff some in-range assignment satisfies the clause and can fire |
| RuleFacts.RecordKeepsLog | ErrorHandler/MessageAnalyzer/ma_rule.cpp:201-240 | a firing keeps the table explained by the list of firings |
| RuleFacts.EvalKeepsLog | ErrorHandler/MessageAnalyzer/ma_rule.cpp:161-253 | one evaluation adds at most one firing, and stored times never change |
| RuleFacts.FirstTimesMeaning | ErrorHandler/MessageAnalyzer/ma_rule.cpp:201-217 | the table holds exactly the fired keys with the times of their first firings |
| RuleFacts.RefireSpacing | ErrorHandler/MessageAnalyzer/ma_rule.cpp:220-240 | a second firing of a key needs a repeating rule and comes more than the holdoff after the first firing |
| RuleFacts.CountsAndSizes | ErrorHandler/MessageAnalyzer/ma_rule.cpp:215-237 | the count is at least the table size, and equal for a non-repeating rule |
| Registration.RuleParts.InsertConditionPtr | ErrorHandler/MessageAnalyzer/ma_rule.cpp:61-102 | refuses exactly unknown new names; keeps the list of distinct names in first-mention order, its index, and the disjunction of the primitive flags |
| Registration.InsertedUnique | ErrorHandler/MessageAnalyzer/ma_rule.cpp:61-102 | the mentions determine the list, the flags and the index |
| Registration.InsertAgain | ErrorHandler/MessageAnalyzer/ma_rule.cpp:70-80 | a repeated mention only strengthens the flag |
| Registration.InsertNew | ErrorHandler/MessageAnalyzer/ma_rule.cpp:91-101 | a new mention is appended |
| Registration.WatchedNames | ErrorHandler/MessageAnalyzer/ma_rule.cpp:338-347 | the conditions a WHERE clause registers on are those whose sources (targets) it mentions |
| Registration.RegisterRule | ErrorHandler/MessageAnalyzer/ma_condition.h:124-134 | puts a rule on each listed condition once, on no other |
| Registration.SortAll | ErrorHandler/MessageAnalyzer/ma_condition.h:136-142 | every list becomes the ascending listing of its rules |
| Notify.PushNotify | ErrorHandler/MessageAnalyzer/ma_condition.h:129-134 | a rule is appended unless it is there |
| Notify.SortListing | ErrorHandler/MessageAnalyzer/ma_condition.h:136-142 | sorting distinct entries gives the one ascending listing of their set |
| Notify.MergeUnique | ErrorHandler/MessageAnalyzer/ma_rule_engine.cpp:217-219 | merge and unique of two ascending lists give the ascending duplicate-free union |
| Notify.MergeNotifyList | ErrorHandler/MessageAnalyzer/ma_rule_engine.cpp:212-221 | the ascending duplicate-free union of the lists of all changed conditions |
| EngineObject.RuleEngine.constructor | ErrorHandler/MessageAnalyzer/ma_rule_engine.cpp:26-113 | the initial state, with every notification list the ascending listing of the rules concerned |
| EngineObject.RegisterAll | ErrorHandler/MessageAnalyzer/ma_rule_engine.cpp:85-109 | registering all rules and sorting gives, per condition, exactly its subscribers |
| EngineObject.RuleEngine.MatchAll | ErrorHandler/MessageAnalyzer/ma_rule_engine.cpp:156-162 | the loop over the conditions: their new states, the queued events, and exactly the conditions that changed |
| EngineObject.RuleEngine.EvaluateRulesDomain | ErrorHandler/MessageAnalyzer/ma_rule_engine.cpp:181-186 | recompiles each listed rule and no other |
| EngineObject.RuleEngine.EvaluateRules | ErrorHandler/MessageAnalyzer/ma_rule_engine.cpp:188-210 | evaluates each listed rule once; the fired ones in list order |
| EngineObject.RuleEngine.NotifyRules | ErrorHandler/MessageAnalyzer/ma_rule_engine.cpp:164-178 | recompiles the watchers of grown tables, then evaluates the subscribers of flipped conditions |
| EngineObject.RuleEngine.StatusList | ErrorHandler/MessageAnalyzer/ma_rule_engine.cpp:170-170 | the ascending list of exactly the rules subscribed to a flipped condition |
| EngineObject.RuleEngine.DomainList | ErrorHandler/MessageAnalyzer/ma_rule_engine.cpp:171-172 | the ascending list of exactly the rules watching a grown table |
| EngineObject.RuleEngine.Feed | ErrorHandler/MessageAnalyzer/ma_rule_engine.cpp:149-179 | one message takes the engine to the next state of the state machine, keeps it valid, and fires exactly the rules that raise an alarm |
| EngineObject.RuleEngine.DeliverDue | ErrorHandler/MessageAnalyzer/ma_rule_engine.cpp:127-135 | popping past-due events least first, in any order among equals, has the effect of the one-shot batch and leaves exactly the later events; it terminates |
| EngineObject.RuleEngine.DeliverOne | ErrorHandler/MessageAnalyzer/ma_condition.cpp:140-150 | one event on its condition |
| EngineObject.RuleEngine.EventBatch | ErrorHandler/MessageAnalyzer/ma_rule_engine.cpp:122-143 | one batch takes the engine to the next state of the state machine, keeps it valid, and fires exactly the rules that raise an alarm |
| Batches.DeliverCond | ErrorHandler/MessageAnalyzer/ma_rule_engine.cpp:130-135 | one more delivered event turns the batch so far into the larger batch |
| Batches.DeliverOther | ErrorHandler/MessageAnalyzer/ma_rule_engine.cpp:130-135 | events of one condition leave the others alone |
| Batches.DeliverFlips | ErrorHandler/MessageAnalyzer/ma_condition.cpp:140-150 | a condition has flipped once one of its events has |
| Batches.Top | ErrorHandler/MessageAnalyzer/ma_timing_event.h:31-39 | the head of the queue has the least stamp |
| Batches.LaterUnique | ErrorHandler/MessageAnalyzer/ma_rule_engine.cpp:130-135 | what is left is exactly what is not past due, and everything past due has been delivered |
| Engine.NextOk | ErrorHandler/MessageAnalyzer/ma_rule_engine.cpp:115-179 | every step keeps the engine well formed |
| Engine.InitialOk | ErrorHandler/MessageAnalyzer/ma_rule_engine.cpp:26-113 | the initial state is well formed |
| EngineFacts.RunFresh | ErrorHandler/MessageAnalyzer/ma_rule_engine.cpp:149-186 | in every reset-free run each cached list equals recompiling against the current tables, and a rule without a clause keeps the all-any box |
| EngineFacts.FeedKeepsFresh | ErrorHandler/MessageAnalyzer/ma_rule_engine.cpp:149-186 | a message keeps every list up to date, already for the evaluations of the same step |
| EngineFacts.BatchKeepsFresh | ErrorHandler/MessageAnalyzer/ma_rule_engine.cpp:122-143 | a batch changes no table |
| EngineFacts.UnwatchedKept | ErrorHandler/MessageAnalyzer/ma_rule_engine.cpp:171-175 | a rule that is not notified would recompile to the same list |
| EngineFacts.RunBoxesSafe | ErrorHandler/MessageAnalyzer/ma_rule.cpp:119-177 | in reset-free runs every box has one pattern per condition, is non-null, and its concrete indices lie in the tables |
| Resets.ResetExact | ErrorHandler/MessageAnalyzer/ma_rule.cpp:265-278 | after any reset, of a rule or a condition, any rule is up to date iff it holds what its clause without the disjuncts over reset conditions compiled to before |
| Resets.ResetByDisjunct | ErrorHandler/MessageAnalyzer/ma_rule.cpp:265-278 | an up-to-date rule stays so iff every disjunct keeps its boxes; without parentheses, iff every disjunct mentioning a reset condition had no box |
| Resets.ResetSpares | ErrorHandler/MessageAnalyzer/ma_rule.cpp:265-278 | no clause, no box, or no reset condition mentioned: the rule stays up to date |
| Resets.ResetFresh | ErrorHandler/MessageAnalyzer/ma_rule.cpp:265-278 | all rules stay up to date iff each of them holds what its pruned clause compiles to |
| Resets.ResetFreshness | ErrorHandler/MessageAnalyzer/ma_rule.cpp:265-278 | a reset keeps the rule itself up to date iff its list was empty |
| ClearedTables.PrunedCompile | ErrorHandler/MessageAnalyzer/ma_domain_cond.cpp:24-150 | compiling against cleared tables is compiling the pruned clause against the tables before |
| ClearedTables.OnlyLoses | ErrorHandler/MessageAnalyzer/ma_domain_cond.cpp:24-150 | clearing tables only removes boxes and keeps the order of the rest |
| ClearedTables.KeptByDisjunct | ErrorHandler/MessageAnalyzer/ma_domain_expr.cpp:10-16 | a clause keeps its boxes iff every disjunct keeps its own |
| Resets.ResetStaleExample | ErrorHandler/MessageAnalyzer/ma_rule.cpp:274-274 | a concrete run with a reset after which a box is stale |
| StaleBoxes.RunBoxesInGrid | ErrorHandler/MessageAnalyzer/ma_hitmap.cpp:92-110 | in every run, resets included, each box has one pattern per condition, is not null and its concrete indices lie inside the grids |
| StaleBoxes.AccessInGrid | ErrorHandler/MessageAnalyzer/ma_rule.cpp:116-159 | in every run each cell whose status an evaluation can ask for lies inside the grid |
| StaleBoxes.RunRoom | ErrorHandler/MessageAnalyzer/ma_hitmap.cpp:92-110 | in every run the tables fit the grids |
| StaleBoxes.StaleFiresExample | ErrorHandler/MessageAnalyzer/ma_rule.cpp:265-278 | a run after whose reset a rule fires on a box with an index outside the table, where its clause compiled anew leaves no candidate |
| EngineWindows.NextKeepsHistory | ErrorHandler/MessageAnalyzer/ma_rule_engine.cpp:115-179 | every step keeps every cell consistent with its hits and queued events |
| EngineWindows.RunHistoryOk | ErrorHandler/MessageAnalyzer/ma_rule_engine.cpp:115-179 | so does every run with nondecreasing message times, resets included |
| EngineWindows.NoStuckCell | ErrorHandler/MessageAnalyzer/ma_cell.cpp:47-101 | in every such run, an on at-least non-persistent cell and a hit, off at-most cell have their current event queued |
| EngineWindows.RunSettled | ErrorHandler/MessageAnalyzer/ma_rule_engine.cpp:127-135 | a run that has reached the end of second T, by the batch after T and then messages of second T at most, has delivered exactly the events up to T |
| EngineWindows.ReadingAt | ErrorHandler/MessageAnalyzer/ma_cell.cpp:21-102 | status and size of one cell of any state that its history explains; at the close of second T, by the window ending there |
| EngineWindows.RunWindow | ErrorHandler/MessageAnalyzer/ma_cell.cpp:21-102 | in every such run that has closed second T, the status of every cell is what the window ending at T says, or for a persistent one its past |
| EngineWindows.RunNow | ErrorHandler/MessageAnalyzer/ma_cell.cpp:21-102 | in every ordered run, at any moment, the status, the size and the newest message of every cell of every condition are what its hits and batches say |
| EngineMessages.RunHeard | ErrorHandler/MessageAnalyzer/ma_hitmap.cpp:32-153 | in every run the cell of registered names x and y has as its past the messages its condition accepted for x and y since its last reset; other names were not heard and other indices not hit |
| EngineMessages.RunNames | ErrorHandler/MessageAnalyzer/ma_hitmap.cpp:40-90 | in every run the tables number the names heard since the last reset, in order of first hearing |
| EngineMessages.RunCaught | ErrorHandler/MessageAnalyzer/ma_condition.cpp:94-137 | in every run the message counter of a condition is the number of messages it accepted since its last reset |
| EngineAlarms.RunAlarms | ErrorHandler/MessageAnalyzer/ma_rule.cpp:191-289 | in every run each table, count and last alarm are explained by the firings since the last reset: spacing, first times, sizes |
| EngineAlarms.LogExplains | ErrorHandler/MessageAnalyzer/ma_rule.cpp:191-289 | what a consistent log says about a rule |
| EngineAlarms.NextKeepsLogs | ErrorHandler/MessageAnalyzer/ma_rule_engine.cpp:115-210 | every step keeps every rule consistent with its log |
| RichMessage.ParseMsg | ErrorHandler/MessageAnalyzer/ma_richmsg.cpp:63-91 | accepts exactly the templates that can be cut, and stores the text without references, the positions and the references |
| RichMessage.RichMsg.Parse | ErrorHandler/MessageAnalyzer/ma_richmsg.cpp:114-121 | the same for the object; false stands for the exception |
| RichMessage.RichMsg.Message | ErrorHandler/MessageAnalyzer/ma_richmsg.cpp:128-143 | inserting the values right to left at the stored positions gives the left-to-right interpolation of the references' own values, and nothing iff some reference has no value |
| RichMessage.CutExact | ErrorHandler/MessageAnalyzer/ma_richmsg.cpp:63-91 | exactly which templates are accepted, and as what: those that are written out from the rule's references and texts without an opening |
| RichMessage.RefExamples | ErrorHandler/MessageAnalyzer/ma_richmsg.cpp:8-61 | the four kinds of references of a condition |
| Rendering.RendersMeaning | ErrorHandler/MessageAnalyzer/ma_hitmap.cpp:142-204 | every reference has a value in the alarm key iff the evaluation reached every condition referred to, its tables are not empty, and where its message is asked for, the cell looked at holds one |
| Rendering.RunRenders | ErrorHandler/MessageAnalyzer/ma_rule_engine.cpp:188-210 | for every alarm of every run whose boxes are up to date: the recorded key gives every reference a value iff the evaluation that raised it reached all of them and there is something to show for each |
| Rendering.MessageGiven | ErrorHandler/MessageAnalyzer/ma_richmsg.cpp:128-143 | the message comes out iff every reference has a value in the key |
| Rendering.SecondUnreachedExample | ErrorHandler/MessageAnalyzer/ma_boolean_cond.cpp:85-106 | an alarm of c1 in c1 || c2 leaves c2 nil, and a message about c2 cannot be rendered |
| RichMessage.TailInterpolate | ErrorHandler/MessageAnalyzer/ma_richmsg.cpp:133-140 | the partial result from the right agrees with the interpolation from the left |
| RichMessage.TemplateRoundTrip | ErrorHandler/MessageAnalyzer/ma_richmsg.cpp:63-91 | for every accepted template, putting each reference's own text back gives the template |
| RichMessage.PartsRoundTrip | ErrorHandler/MessageAnalyzer/ma_richmsg.cpp:63-91 | a template written out from texts and references is cut back into exactly these |
| RichMessage.WrittenTemplate | ErrorHandler/MessageAnalyzer/ma_richmsg.cpp:63-91 | the same with the references of a rule |
| RichMessage.RefRoundTrip | ErrorHandler/MessageAnalyzer/ma_richmsg.cpp:8-61 | an accepted reference is the text of the symbol it yields |
| RichMessage.ParserReads | ErrorHandler/MessageAnalyzer/ma_richmsg.cpp:8-61 | the text of every symbol of a known condition is accepted and yields it |
| RichMessage.FindOpenFirst | ErrorHandler/MessageAnalyzer/ma_richmsg.cpp:66-66 | the search finds the first opening |
| ViewerPool.Viewer.OnNewMsg | mfextensions/Binaries/mvdlg.cc:309-334 | one message: the view after it is that of Receive, and every index remains the pool filtered by its key |
| ViewerPool.ReceiveMeaning | mfextensions/Binaries/mvdlg.cc:309-334 | stopped iff a suppression in use matches it, else held iff some throttle counts and holds it, else it is the newest of the pool and only too many old ones leave; the counters say which |
| ViewerPool.SuppressMeaning | mfextensions/Binaries/mvdlg.cc:258-265 | a message is suppressed iff some suppression in use, of host, application or category, matches it |
| ViewerPool.HoldMeaning | mfextensions/Binaries/mvdlg.cc:273-280 | a message is held iff some throttle, asked on its own, holds it |
| ViewerPool.HoldSteps | mfextensions/Binaries/mvdlg.cc:273-280 | a throttle sees the message iff none asked before it, by host, application, category, holds it |
| ViewerPool.Viewer.MsgThrottled | mfextensions/Binaries/mvdlg.cc:252-285 | counts a suppressed or a throttled message once; a suppressed message is seen by no throttle |
| ViewerPool.Viewer.AnySuppresses | mfextensions/Binaries/mvdlg.cc:258-265 | whether some active pattern of the list matches |
| ViewerPool.Viewer.ReachLimits | mfextensions/Binaries/mvdlg.cc:273-280 | the throttles up to the first that holds the message are updated, the later ones not |
| ViewerPool.Viewer.Admit | mfextensions/Binaries/mvdlg.cc:328-334 | push, trim and index: the newest messages within the maximum, indexed; the deleted ones counted |
| ViewerPool.Viewer.TrimMsgPool | mfextensions/Binaries/mvdlg.cc:359-401 | drops the oldest messages beyond a positive maximum; the indexes follow while the newest message is not indexed yet |
| ViewerPool.Viewer.UpdateIndex | mfextensions/Binaries/mvdlg.cc:438-474 | the newest message enters its three lists |
| ViewerPool.Viewer.Clear | mfextensions/Binaries/mvdlg.cc:840-864 | empties the counters, the pool and the indexes, and keeps the filters |
| ViewerPool.Viewer.SetSuppression | mfextensions/Binaries/mvdlg.cc:1026-1031 | switches one suppression |
| ViewerPool.Viewer.SetThrottling | mfextensions/Binaries/mvdlg.cc:1033-1038 | switches one throttle |
| ViewerPool.Enter | mfextensions/Binaries/mvdlg.cc:445-453 | one index after a message entered the pool |
| ViewerPool.Leave | mfextensions/Binaries/mvdlg.cc:373-396 | one index after the front message left the pool; no key keeps an empty list |
| ViewerPool.IndexUnique | mfextensions/Binaries/mvdlg.cc:438-474 | the pool determines its index |
| ViewerPool.IndexCounts | mfextensions/Binaries/mvdlg.cc:438-474 | each index lists a pooled message under its key exactly as often as the pool holds it |
| ViewerPool.HoldListAt | mfextensions/Binaries/mvdlg.cc:273-280 | a throttle sees a message at most once; if the message gets through, every throttle has seen and passed it |
| ViewerPool.RunBalanced | mfextensions/Binaries/mvdlg.cc:252-401 | in every run received = suppressed + throttled + deleted + pooled, and the pool stays within a positive maximum |
| ViewerPool.RunPool | mfextensions/Binaries/mvdlg.cc:309-401 | in every run the pool is the newest part of what was let in since the last clear, and the rest is counted as deleted |
| ViewerPool.RunCounters | mfextensions/Binaries/mvdlg.cc:252-334 | in every run the counters are the messages that came since the last clear, and those a suppression stopped |
| ViewerPool.RunSuppress | mfextensions/Binaries/mvdlg.cc:1026-1031 | in every run the last switch decides whether a suppression is in use, and nothing else about it changes |
| ViewerPool.RunThrottle | mfextensions/Binaries/mvdlg.cc:1033-1038 | the same for a throttle, whose pattern and limits never change |
| ViewerPool.GateHistory | mfextensions/Binaries/mvdlg.cc:252-285 | what one throttle has seen during a run, in order, and that admitted messages are among those it passed |
| ViewerPool.ThrottledPool | mfextensions/Binaries/mvdlg.cc:252-334 | whatever is switched meanwhile, at most twice its limit of the messages a throttle looks at enter the pool in any timespan + 1 seconds |
| Throttle.Limiter.ReachLimit | mfextensions/Extensions/throttle.cc:6-46 | all branches: off, no match, limits zero and negative, no timespan, and the window |
| Throttle.Limiter.SetUse | mfextensions/Extensions/throttle.hh:40-40 | switches the throttle on or off and keeps its window |
| Throttle.AnyWindow | mfextensions/Extensions/throttle.cc:34-46 | at most twice the limit passes in any timespan + 1 consecutive seconds |
| Throttle.AnyWindowTight | mfextensions/Extensions/throttle.cc:34-46 | twice the limit does pass |
| Throttle.WindowExact | mfextensions/Extensions/throttle.cc:34-46 | each window begins with the first counted message more than a timespan after the last one began, and lets exactly the limit pass, or all that come if fewer |
| Throttle.RestOfWindow | mfextensions/Extensions/throttle.cc:34-46 | within a window that has begun, exactly the rest of the limit passes |
| Throttle.WindowBudget | mfextensions/Extensions/throttle.cc:34-46 | how the passes of such seconds divide over the two windows they can touch |
| Throttle.LongSpan | mfextensions/Extensions/throttle.cc:34-46 | from an expired window, over [lo, hi] at most the limit passes per started timespan + 1 seconds |
| Throttle.SpanBudget | mfextensions/Extensions/throttle.cc:34-46 | each window begins more than a timespan after the one before and lets at most the limit pass |
| Throttle.OtherLimits | mfextensions/Extensions/throttle.cc:18-32 | limit 0 passes nothing, a negative limit everything, no timespan the first messages up to the limit |
| Throttle.Ignored | mfextensions/Extensions/throttle.cc:13-16 | over every run, messages that do not match might as well not have come |
| Throttle.OffIgnores | mfextensions/Extensions/throttle.cc:8-11 | until it is switched on again nothing reaches a throttle that is off |
| UdpWire.Sender.FillPrefix | mfextensions/Destinations/UDP_mfPlugin.cc:313-360 | appends the twelve fields, each with a bar and the file name trimmed, and steps the sequence number |
| UdpWire.Sender.Trim | mfextensions/Destinations/UDP_mfPlugin.cc:335-358 | cuts the file name by the delimiter |
| UdpWire.TrimmedMeaning | mfextensions/Destinations/UDP_mfPlugin.cc:335-358 | no delimiter: all; one character: what follows its last occurrence; longer: what follows the first slash from the end of its first occurrence on, undefined iff there is none |
| UdpWire.ShowMeaning | mfextensions/Destinations/UDP_mfPlugin.cc:313-360 | a printed number is digits that stand for it, without a leading zero |
| UdpWire.Sender.FillUsrMsg | mfextensions/Destinations/UDP_mfPlugin.cc:365-378 | appends the items' text, all of it but for one leading newline |
| UdpWire.BodyMeaning | mfextensions/Destinations/UDP_mfPlugin.cc:372-376 | the body is the items' text in a row: a text that does not start with a newline is sent whole, of a newline followed by x exactly x |
| Texts.ConcatAt | mfextensions/Destinations/UDP_mfPlugin.cc:367-371 | in the items' text each item stands between those before it and those after it |
| UdpWire.OneNewline | mfextensions/Destinations/UDP_mfPlugin.cc:375-375 | one newline is stripped and no more |
| UdpWire.Sender.Packet | mfextensions/Destinations/UDP_mfPlugin.cc:383-396 | the packet handed to sendto |
| UdpWire.Escape | mfextensions/Destinations/UDP_mfPlugin.cc:315-322 | the escaped text holds no bar, so it is one token, and text without a bar is unchanged |
| UdpWire.EscapeAtBar | mfextensions/Destinations/UDP_mfPlugin.cc:315-322 | at each bar stands an exclamation mark, and the text around it is escaped on its own |
| UdpWire.Tokenize | mfextensions/Receivers/UDP_receiver.cc:128-150 | cuts the input at the bars |
| UdpWire.JoinTokens | mfextensions/Receivers/UDP_receiver.cc:128-150 | joining the tokens with bars gives the input back, but for one trailing bar |
| UdpWire.TokensPacket | mfextensions/Receivers/UDP_receiver.cc:128-150 | fields without bars are the first tokens of a packet, the tokens of the body follow |
| UdpReceive.ScanOne | mfextensions/Receivers/UDP_receiver.cc:176-191 | one token of the search for the time: found, absent, or never ending |
| UdpReceive.ScanMeaning | mfextensions/Receivers/UDP_receiver.cc:176-191 | the first digit position that starts a time is found; without one the scan ends iff the token is empty or its last character is a digit, and hangs iff it is not |
| UdpReceive.ReadStuck | mfextensions/Receivers/UDP_receiver.cc:173-193 | reading never ends iff some token hangs and all earlier ones were passed over |
| UdpReceive.ValidStuckExample | mfextensions/Receivers/UDP_receiver.cc:290-304 | a packet the check accepts and the receiver never finishes, whatever the library |
| UdpReceive.ReadMsg | mfextensions/Receivers/UDP_receiver.cc:152-288 | the whole parse, with a scan that never ends and an escaping exception as outcomes |
| UdpReceive.ReadFields | mfextensions/Receivers/UDP_receiver.cc:198-213 | the step past the sequence number, undone when stoi rejects the next token |
| UdpReceive.ReadFrom | mfextensions/Receivers/UDP_receiver.cc:214-272 | the fields from the host on, with the process id undone likewise |
| UdpReceive.ReadBody | mfextensions/Receivers/UDP_receiver.cc:259-273 | the remaining tokens joined with bars |
| UdpReceive.HeadAbsent | mfextensions/Receivers/UDP_receiver.cc:169-193 | the leading token is passed over, whatever the process id |
| UdpReceive.PacketTokens | mfextensions/Receivers/UDP_receiver.cc:162-193 | reading a sender's packet starts behind its time |
| UdpReceive.RoundTrip | mfextensions/Receivers/UDP_receiver.cc:152-288 | if stoi rejects the host, every field comes back, with escaped bars, and the items' text without one leading newline and one trailing bar; the sequence number is reported as 0 |
| UdpReceive.NumericHost | mfextensions/Receivers/UDP_receiver.cc:198-288 | if stoi reads the host as a number, it becomes the sequence number and every field up to the application moves by one; the process id and all later fields are given for a numeric and for any other iteration |
| UdpReceive.HostRecovered | mfextensions/Receivers/UDP_receiver.cc:198-217 | exactly when the host comes back |
| UdpReceive.PacketValid | mfextensions/Receivers/UDP_receiver.cc:290-304 | every packet of the sender is accepted |
| UdpReceive.ValidMeaning | mfextensions/Receivers/UDP_receiver.cc:290-304 | accepted iff an M before an F and a bar occur |
| UdpReceive.ShortPacket | mfextensions/Receivers/UDP_receiver.cc:195-287 | missing fields are empty and missing numbers 0 |
| UdpReceive.BigHost | mfextensions/Receivers/UDP_receiver.cc:198-213 | a host that is a number out of range lets the exception escape |
| UdpBackoff.Destination.RoutePayload | mfextensions/Destinations/UDP_mfPlugin.cc:389-418 | whether the packet is sent and the failure reported, and the counters |
| UdpBackoff.NextReport | mfextensions/Destinations/UDP_mfPlugin.cc:398-416 | the next report is due at the factor to the power of the reports so far, which the error count has not reached |
| UdpBackoff.ReportCount | mfextensions/Destinations/UDP_mfPlugin.cc:398-416 | n errors since the last clear have been reported floor(log n) + 1 times |
| UdpBackoff.FloorLogMeaning | mfextensions/Destinations/UDP_mfPlugin.cc:406-406 | the logarithm is the exponent of the largest power not above n |
| UdpBackoff.ReportCountSmallFactor | mfextensions/Destinations/UDP_mfPlugin.cc:406-406 | with a factor below 2 only the first error since a clear is reported |
| UdpBackoff.StaysOff | mfextensions/Destinations/UDP_mfPlugin.cc:389-389 | once off, nothing is sent or reported and no counter moves |
| UdpBackoff.SentExact | mfextensions/Destinations/UDP_mfPlugin.cc:389-401 | in every run a message is sent iff the threshold is 0, or positive and never reached by the failures since five successes in a row |
| UdpBackoff.ReportedExact | mfextensions/Destinations/UDP_mfPlugin.cc:398-416 | a failure is reported iff it is sent and, with those since the last clear, makes a power of the factor |
| UdpBackoff.ClearAfterFive | mfextensions/Destinations/UDP_mfPlugin.cc:409-416 | while on, five successes in a row clear the errors |
| UdpBackoff.OffAfter | mfextensions/Destinations/UDP_mfPlugin.cc:389-401 | without five successes in a row the errors are the failures, and the destination is off exactly when they reach a positive threshold |

## Left out

- The grammars that parse rule expressions, and the condition `test` expressions: the model starts from the syntax trees. The exceptions for empty condition lists are excluded by the grammar, which requires at least one element.
- Regex matching, severity and category filters, the extraction of source and target, and the message text kept in cells: a message is its second and what each condition makes of it.
- Actions, mail, scripts, alarm callbacks, and the reset an action may trigger inside `evaluate_rules`; a reset is a step of its own.
- The functions `count_percent` and `is_syncd`, and participants; `count` is modelled.
- `domain_union`, `domain_compare` and the list overloads of `domain_intersect`, which nothing calls.
- Threads: `feed` and one event batch are atomic steps, taken in any order.
- Strings are sequences of characters, ordered by character; the original compares bytes.
- Machine integers: counters and times are unbounded, so overflow of counters is not modelled.
- EndToEnd: assumes message times that are not negative and do not decrease, and boxes that are up to date, as they are in every run without resets. The form over names is for rules without `count`, all of whose conditions are primitive and whose literal lists name no condition twice; the form over boxes is for every rule.
- RunLogHeard: assumes boxes that are up to date before every action of the run.
- RunWindow: assumes message times that are not negative and do not decrease, and a run that has reached the end of second T; RunNow needs no such end.
- EvaluateCond: models statuses and `count`; functions with ungrouped alarms and functions that give a boolean or a string (`is_syncd` and user functions) are not modelled.
- Rule.Reset: resets the alarm part of a rule; the reset of its conditions is in the engine's step ResetRuleOf, and functions have no state here.
- EvaluateRules: models the loop with actions off; the reset that an action may trigger between two evaluations is not part of it.
- RuleEngine: holds its conditions' hit maps and its rules by value, as the maps of the original do, and advances a hit map by the step function that HitMap.Capture and HitMap.Event are proved to compute; the grid itself is part of the class HitMap only.
- RuleEngine.Feed: the callbacks for matched conditions and raised alarms are represented by the list of fired rules.
- HitMap: its grid stores cell values; one cell object is loaded, updated and stored back per hit or event.
- Viewer.OnNewMsg: per-tab lists, filters, counters shown on the display, and icons are not modelled.
- Viewer.Clear: models the confirmed answer only.
- Sender: takes the timestamp and the iteration as printed; file names and delimiters hold no NUL character.
- FillPrefix: requires a file name that the delimiter can cut; TrimmedMeaning says exactly which names it cannot.
- ReadMsg: takes `strptime`, `stoi` and `stol` as functions; a scan that would never end is an outcome of its own, as is the escaping out-of-range exception.
- Printable: asks of `strptime` that it rejects strings of digits, and of `stol` that it reads back the printed process id.
- RoutePayload: sockets, reconnection and host resolution are not modelled; whether a send succeeds is a parameter.
- RichMsg.Message: the values of sources, targets, messages and groups are a function of the reference, None for an exception; Rendering says for which references an alarm key has one.
- RunRenders: assumes boxes that are up to date. What a regular expression matched is not modelled, so a group that the last match does not have counts as a value.
- Widgets, list views, rendering, configuration reading, and the other receivers and destinations (Kafka, SMTP, curl, TRACE, ANSI, OTS, MultiFile, Friendly).
