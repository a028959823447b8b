# Decision-SQL verified model

Decision-SQL puts deterministic gates and rewrites between an untrusted SQL proposal and the
database. This project models its query transformations, its static analyses, its bounded
request lifecycle and its report store in Dafny, and proves what they promise.

- `Sql.dfy` is the query language the transformations and analyses are stated over: NULLs and
  three-valued logic (section 8.12 of ISO/IEC 9075:1992), left-deep FROM lists with inner, cross,
  left, right and full joins (section 7.5), WHERE, GROUP BY, HAVING, DISTINCT, set functions
  (section 6.5), UNION, CTEs, derived tables and correlated subqueries, with an evaluator over an
  arbitrary database. `Values.dfy` holds its values and set functions, `Seqs.dfy` the sequence
  combinators it is built from, `AliasScope.dfy` that a query means the same whatever row an alias
  it never names has, `QueryNodes.dfy` the queries inside a query.
- Query transformations: `ReportFilters.dfy` (filter pushdown) and `AppliedFilters.dfy` (a reader's
  choices); `GrainNormalizer.dfy` with
  `GrainRows.dfy` and `ChildScope.dfy` (child pre-aggregation, the rows it returns, and where the
  child's alias may be named) and `GrainRuntime.dfy` (its fail-closed boundary, a cascade);
  `Conditions.dfy` (numbered conditions and their edits); `StoredValues.dfy` (literal respelling);
  `PostGates.dfy` (what the rewrites after the gates leave alone), `RewritesDone.dfy` (that they do
  their work) and `Ordering.dfy` (the last of them, where a descending order puts rows without a
  value).
- Static analyses: `RowKeys.dfy` (row uniqueness), `RepeatedSources.dfy` (whether a joined source
  repeats rows), `ColumnTrace.dfy` (column tracing), `JoinPolicy.dfy` (the join graph) and
  `JoinLinks.dfy` (which tables it joins), `AllowedTables.dfy` (what an admitted query reads),
  `SchemaPaths.dfy` (tables between the ones a question names).
- Lifecycle: `AttemptBudget.dfy`, `SqlSafety.dfy` (plan tokens), `Results.dfy` (comparing results),
  `RunRules.dfy` (what follows what in a run) and `DecisionRun.dfy` (the service that does it). The model provider, the clock, the database and every gate's answer, an
  exception among them, are arbitrary inputs.
- Protocol: `Reports.dfy`, saves by version and scheduled claims under every interleaving;
  `ReportEdits.dfy`, what each edit makes of a report.
- `Names.dfy`: fresh aliases and result columns.

Where the source does not keep a promise on every input, the model keeps the code as it is, a
lemma shows inputs on which it fails (`RightJoinIsNotFiltered`, `UnionHidesTheSkip`,
`CteIsNotFiltered`, `LaterOnLosesRows`, `DerivedNameTaken`, `ItemLost`, `JoinKeysUnderOr`,
`SetOperationRepeats`, `CorrelatedColumn`, `UnselectedKey`, `IdleJoin`, `Vanishes`, `DropUnderNot`,
`NoteLosesSql`, `ClaimedTwice`), and the theorem beside it states the condition under which the promise holds.
`ReadsBack`, `ColumnFirst`, `ColumnsToldApart`, `DanglesExactly`, `PickedTwice`, `CountAgrees`,
`SumAgrees`, `ItemsCounted`, `HasSql` and `ClaimableAgain` give theirs exactly, in both directions.

Nothing was executed. `dafny verify dfyconfig.toml` checks the whole project.

## Model

| member | source | states |
|---|---|---|
| ReportFilters.PredicateMeaning | app/reports/filters.py:95-111 | the predicate a choice becomes is true on a combination exactly when the alias's row is one the reader chose; no predicate means every row is chosen |
| ReportFilters.FilteredRows | app/reports/filters.py:114-163 | for any nesting of CTEs and subqueries and any mix of inner, cross and left joins, the filtered query returns what the unfiltered one returns on the database whose table keeps only the chosen rows |
| ReportFilters.AllFilteredRows | app/reports/filters.py:134-163 | the same for several filters applied in turn |
| ReportFilters.FilterOrder | app/reports/filters.py:134-163 | any order of the same filters gives the same rows |
| ReportFilters.Untouched | app/reports/filters.py:114-131 | a filter reported as skipped changed nothing |
| AppliedFilters.NoneApplied | app/reports/filters.py:134-163 | with no filter applied the query is the pinned one |
| AppliedFilters.ActiveFilters | app/reports/filters.py:137-141 | the loop keeps exactly the filters a non-empty choice was made for, each once and in the report's order, paired with its choice and with whether a CTE of the query has its table's name |
| AppliedFilters.ApplyFilters | app/reports/filters.py:134-163 | in the report's order, a picked filter is applied exactly when its choice gives a predicate, no CTE of the query has its table's name, and some SELECT without a RIGHT or FULL join reads the table, and is skipped otherwise; and where every read of the filtered tables, or of those applied filters are on, is in such a SELECT, the query returns on any database what the pinned one does where each table keeps the rows its filters choose |
| AppliedFilters.RightJoinIsNotFiltered | app/reports/filters.py:116-119 | beside a RIGHT join the filter is skipped and a row it should hide stays |
| AppliedFilters.CteIsNotFiltered | app/reports/filters.py:146-152 | a filter on a table whose name a CTE of the query has is skipped, and a row it should hide stays |
| AppliedFilters.UnionHidesTheSkip | app/reports/filters.py:114-131 | in a UNION with such a branch the filter is reported as applied when another branch takes it, and the row to hide is still shown |
| GrainNormalizer.NewFromRows | app/semantics/grain_normalizer.py:325-365 | where no later join names the child, the rewritten FROM list yields the combinations of the other sources, each once, with the child's totals attached |
| ChildScope.SupportedExactly | app/semantics/grain_normalizer.py:398-464 | what the theorems ask of the FROM list is what is checked of it and that no later join names the child, or the fresh name, exactly |
| ChildScope.DanglesExactly | app/semantics/grain_normalizer.py:357-367 | the rewritten FROM list no longer brings the child's alias in, and still names it if and only if a later join of the original names it |
| ChildScope.LaterOnLosesRows | app/semantics/grain_normalizer.py:438-521 | a later inner join whose ON compares a child column passes every check, and the rewritten query has no row where the original has one |
| GrainNormalizer.EachOnce | app/semantics/grain_normalizer.py:268-396 | each surviving combination of parent and other rows occurs exactly once in the rewritten query |
| GrainNormalizer.OriginalSpreads | app/semantics/grain_normalizer.py:268-396 | the original query's combinations are the same ones, repeated per child row: any total over them is the total over those with their children |
| GrainNormalizer.SameGroups | app/semantics/grain_normalizer.py:268-396 | a key has a group before HAVING in the rewritten query exactly when it has one in the original |
| GrainNormalizer.SameChildSums | app/semantics/grain_normalizer.py:329-377 | every child SUM keeps its NULL-aware value in every group |
| GrainNormalizer.SameGroupedSums | app/semantics/grain_normalizer.py:268-396 | a grouped query and its rewritten form have the same groups and, per group, the same value of every child SUM |
| GrainNormalizer.ParentAggregates | app/semantics/grain_normalizer.py:268-396 | any aggregate that does not read the child is, per group, the one of the query without the child join |
| GrainNormalizer.SameValue | app/semantics/grain_normalizer.py:490-521 | an expression that uses the child only as the check allows has the same value on a combination with its child row and on its rewritten form |
| GrainNormalizer.GroupKeysAgree | app/semantics/grain_normalizer.py:498-510 | GROUP BY keys each combination and its rewritten form alike |
| GrainNormalizer.BaseGroupKey | app/semantics/grain_normalizer.py:498-510 | grouped by expressions, the groups are those of the query without the child join |
| GrainRows.SameKeys | app/semantics/grain_normalizer.py:268-396 | the rewritten query's groups before HAVING are those of the original, no key twice |
| GrainRows.RewrittenRows | app/semantics/grain_normalizer.py:268-396 | with any HAVING, DISTINCT and LIMIT, the rewritten query returns one row for each group in which HAVING holds, asked of the query without the child join, without repeats if asked so, cut to the limit; in each output expression a child SUM is the original query's total for the group and any other aggregate is taken once per combination of the other rows |
| GrainRows.ParentSide | app/semantics/grain_normalizer.py:268-396 | of these, an aggregate that does not read the child is the one of the query without the child join |
| GrainRows.KeyShown | app/semantics/grain_normalizer.py:498-510 | an output that is a grouping expression holds the group's key |
| GrainRows.OwnGroup | app/semantics/grain_normalizer.py:498-510 | grouped by expressions, or not at all, the groups are those the query without the child join makes itself |
| GrainRows.CountAgrees | app/semantics/grain_normalizer.py:473-521 | a COUNT over the child's key columns, which the checks let through, keeps its value if and only if no combination it counts has two child rows |
| GrainRows.SumAgrees | app/semantics/grain_normalizer.py:473-521 | a SUM over them keeps its value if and only if what the second and further child rows add comes to nothing |
| GrainRows.ItemsCounted | app/semantics/grain_normalizer.py:473-521 | a SUM of 1 per child row, told by its key, becomes the number of combinations with any: the same if and only if none has several |
| GrainRows.ItemLost | app/semantics/grain_normalizer.py:473-521 | one parent row with two children: such a count is 2 in the original and 1 in the rewritten query |
| GrainNormalizer.PreAggregatedNeverRepeats | app/semantics/grain.py:523-547 | the pre-aggregated child's row keys are exactly its join keys, so the validator never counts it as repeating |
| GrainNormalizer.PickNames | app/semantics/grain_normalizer.py:319-339 | the derived table's name is that of no table or CTE of the FROM list and each total's name is new among the totals, the first free suffix each time |
| ChildScope.PickedTwice | app/semantics/grain_normalizer.py:97-106 | the rewritten FROM list brings no alias in twice if and only if no derived table of the original has the name that search ends at |
| ChildScope.DerivedNameTaken | app/semantics/grain_normalizer.py:319-320 | beside a derived table named like the child with the suffix, the rewritten FROM list has that name twice |
| GrainNormalizer.ColumnsToldApart | app/semantics/grain_normalizer.py:325-340 | the derived table's columns are all different if and only if the keys and the totals are among themselves and no key column is named like a total |
| GrainRuntime.NormalizeTwice | app/semantics/grain_normalizer.py:121-219 | normalizing a normalized text leaves it unchanged |
| GrainRuntime.NormalizesWhen | app/semantics/grain_normalizer.py:121-219 | a text is normalized if and only if it is a readable SELECT the validator finds a fan-out in, and its rewrite is one it finds safe |
| GrainRuntime.FailsClosed | app/semantics/grain_runtime.py:95-180 | whatever the normalizer answers, a query passes as it is if and only if the validator calls it neither a violation nor a parent fan-out, and a fan-out passes if and only if it is rewritten and reported PASS or NOT_APPLICABLE |
| GrainRuntime.SelectedIsNoViolation | app/semantics/grain_runtime.py:95-180 | what passes the boundary with this normalizer, the validator itself does not call a violation |
| Names.FreshAlias | app/semantics/grain_normalizer.py:523-530 | the search ends with a free name, and the first one in order |
| Names.UniqueName | app/execution/reader.py:27-42 | the inner search ends with the name itself where it may be kept, or its first free suffix |
| Names.UniqueColumns | app/execution/reader.py:27-42 | as many pairwise distinct names, each name's first occurrence unchanged, no suffixed name taken from another column |
| Names.NoValueLost | app/execution/reader.py:77-82 | a row made a dict under distinct names holds every value of the tuple |
| RowKeys.RowKeysSound | app/semantics/grain.py:902-950 | where the inferred keys are known and output under their own names, no two rows of the source agree on them, at any depth of grouping, DISTINCT and renaming |
| RowKeys.KeysFound | app/semantics/grain.py:902-950 | keys are inferred of every select that groups, aggregates or is DISTINCT: the columns that show its GROUP BY entries, all its columns, or none where it is one row |
| RowKeys.JoinsOnce | app/semantics/grain.py:523-547 | a derived source brought in by an ON that equates all its keys meets each combination before it at most once |
| RepeatedSources.KeptOnce | app/semantics/grain.py:523-547 | wherever a CTE or derived table stands in the FROM list, and whether its keys are equated in WHERE or an ON, kept rows that agree on every other alias carry one and the same row of it, and no two of its rows are alike |
| RepeatedSources.HeldKeysCounted | app/semantics/grain.py:963-977 | the equalities that theorem rests on are among those gathered from the SELECT, so wherever it applies the source is reported not to repeat |
| RepeatedSources.SetOperationRepeats | app/semantics/grain.py:527-529 | a UNION ALL of a query with itself is taken not to repeat, yet holds each row twice |
| RowKeys.JoinKeysUnderOr | app/semantics/grain.py:963-977 | an equality under OR is taken for a join key, though the join then matches every row |
| RowKeys.CorrelatedColumn | app/semantics/grain.py:939-950 | a column of an enclosing query is taken for the source's key, though it never varies |
| RowKeys.UnselectedKey | app/semantics/grain.py:916-926 | a GROUP BY column that is not selected is taken for the output column of the same name, on which two rows can agree |
| ColumnTrace.TracedOutput | app/sql/policy.py:431-478 | whenever a CTE's or derived table's column is traced, through any depth of CTEs, casts and stars, each value it takes is that table column's value in some row of the table, cast or not, or NULL |
| ColumnTrace.TracedColumn | app/sql/policy.py:431-478 | the same for a side of an equality, on every row the select keeps |
| ColumnTrace.RowsShown | app/sql/policy.py:646-680 | no row of a query has a column outside those read off its outputs, both sides of a set operation counted |
| ColumnTrace.TracesTable | app/sql/policy.py:431-478 | a table's column shown under a name, cast or not, is traced to that column |
| ColumnTrace.TracesThrough | app/sql/policy.py:431-478 | what is traced of a query is traced on through a select that shows it of a derived table or a CTE |
| JoinPolicy.Connected | app/sql/policy.py:785-796 | the worklist search ends, and answers whether a path of links joins two tables, exactly |
| JoinLinks.UnlinkedTables | app/sql/policy.py:301-350 | none is reported if and only if any two tables of the FROM list are joined by a way from alias to alias, each step within one table or by a condition ANDed into WHERE or an ON all of whose alternatives equate authorized columns of the two aliases; no such way joins a reported pair |
| JoinPolicy.FirmTermHolds | app/sql/policy.py:776-782 | a condition ANDed into an inner join's ON is true on every combination no RIGHT or FULL join pads over |
| JoinPolicy.LinksHold | app/sql/policy.py:352-364 | on every row the select keeps, a link made in WHERE or such an ON has a true equality between its two relations, or a true branch of its OR |
| JoinLinks.TablesChained | app/sql/policy.py:301-350 | in a select of inner and cross joins without unlinked tables, on every row kept, any two tables are joined by such a way with an authorized equality of the select true of that row at each step |
| JoinPolicy.OuterLinksHold | app/sql/policy.py:352-364 | on every row the select keeps, a link made in the ON of a LEFT JOIN, or below an outer join, has one too, unless the alias it hangs on is NULL-padded |
| JoinPolicy.LeftSideKept | app/sql/policy.py:776-782 | a LEFT or FULL JOIN keeps every combination of its left side, so a link in its ON that does not involve the joined alias restricts none |
| JoinLinks.IdleJoin | app/sql/policy.py:301-350 | a condition in a LEFT JOIN's ON between two tables of its left side joins them all the same: no table is reported unlinked, yet the two keep their full cross product |
| PostGates.RewriteIsAlike | app/sql/precision.py:49-76 | respelling and widening change text literals into text literals and put casts around columns, nothing else |
| RewritesDone.RewriteSettles | app/sql/precision.py:49-76 | at every depth of the rewritten query, no single-precision column is summed or made numeric as it is, and no text compared for equality or membership with a column is spelled other than it is stored |
| PostGates.TraceOutputAlike | app/sql/policy.py:431-478 | such changes leave every column's trace as it was |
| PostGates.LinksAlike | app/sql/policy.py:301-364 | such changes leave the links of a select as they were |
| PostGates.AdmittedAlike | app/sql/policy.py:56-80 | such changes leave the verdict of the table, column, function, join and authority checks as it was, at every level |
| AllowedTables.AllowedOnly | app/sql/service.py:229-316 | an admitted query returns the same on any two databases that agree on the allowed tables |
| AllowedTables.AdmittedJoined | app/sql/policy.py:301-350 | any two tables of an admitted select are joined by authorized conditions |
| AllowedTables.OneTable | app/sql/policy.py:56-80 | a query of one column of one table is admitted if and only if the table is allowed and has the column |
| Ordering.VerdictKept | app/sql/service.py:317-363 | a statement with its ORDER BY, respelled, then widened, then with NULLs placed last, is admitted by the gates exactly when it was before |
| Ordering.ValuedRowsFirst | app/sql/ordering.py:71-88 | where a descending order picks rows, the answer of the rewritten statement holds a row without a value for the first key only when every row with one is in it, as often as the query has it, or was skipped by OFFSET |
| Ordering.FirstRow | app/sql/ordering.py:1-12 | its first row has no value only if no row has one, where with the order left as written it has none as soon as one row has none |
| Ordering.SameAnswers | app/sql/ordering.py:71-88 | with no value missing for a key it changes, the rewritten statement has the same answers |
| Ordering.ValuedPrecedes | app/sql/ordering.py:71-88 | by any descending key but a COUNT, a row with a value comes before one without, where no earlier key tells them apart |
| Ordering.LeftAsWritten | app/sql/ordering.py:56-88 | without OFFSET or LIMIT, or where the text says NULLS FIRST, the statement is as written, and an ascending key always is |
| Conditions.EditConditions | app/sql/explain.py:158-179 | the loop makes the edits in turn, each where the original query had its condition, or refuses them all |
| Conditions.FoundApart | app/sql/explain.py:182-200 | two numbers name two nodes |
| Conditions.EditsCommute | app/sql/explain.py:158-179 | two edits of distinct conditions, of values or removals, give the same query in either order |
| Conditions.ReadsBack | app/sql/explain.py:274-305 | reading the query again after a value edit gives the same numbering, columns, operators and removability with only the edited values changed, if and only if every new value reads as the condition's kind |
| Conditions.Vanishes | app/sql/explain.py:203-244 | values of two kinds in an IN list make the condition vanish from the next reading |
| Conditions.ColumnFirst | app/sql/explain.py:203-226 | a comparison read column first means the same whichever side the column is on, if and only if it is not a LIKE with the column as its pattern, unless that holds both ways or neither |
| Conditions.SpineTrue | app/sql/explain.py:264-271 | a clause is true exactly when every condition ANDed into it is |
| Conditions.DropKeepsRest | app/sql/explain.py:171-176 | dropping a removable condition not under NOT keeps exactly the rows every other conjunct keeps |
| Conditions.DropUnderNot | app/sql/explain.py:264-271 | dropping one under NOT, which counts as removable too, keeps no row |
| StoredValues.KeyAgain | app/sql/values.py:39-46 | a key is its own key |
| StoredValues.KeyTells | app/sql/values.py:39-46 | texts of letters and digits have one key if and only if they are alike but for case, numbers aside |
| StoredValues.KeyPasses | app/sql/values.py:39-46 | any other character makes no difference to a key, wherever it stands |
| StoredValues.NumbersPadded | app/sql/values.py:39-46 | leading zeros make none to a number's |
| StoredValues.DatabaseSelectsKey | app/sql/service.py:80-92 | the database-side form selects exactly the stored values whose key is the literal's |
| StoredValues.Check | app/sql/values.py:89-123 | the loop respells each literal on its own and reports exactly the unmatched ones, in order |
| StoredValues.RespelledIsStored | app/sql/values.py:105-116 | only an unstored literal changes, to the sole stored value with its key |
| StoredValues.CheckTwice | app/sql/values.py:89-123 | checking again changes nothing more and reports the same unmatched literals |
| StoredValues.Probe | app/sql/values.py:205-228 | a probed literal is rewritten exactly when it is unstored, has a key, and one stored value alone has that key |
| SchemaPaths.ShortestPath | app/retrieval/context.py:352-367 | a path of least length from start to target when one exists within the depth, and nothing otherwise |
| SchemaPaths.ExpandRelationships | app/retrieval/context.py:222-237 | the seeds, and every readable table of a shortest path between each two seeds in reach; any table selected is a seed or a readable one on such a path |
| AttemptBudget.MostCalls | app/decision/budget.py:74-96 | calls within their allowances are at most the exploration rounds and five more, 7 at the defaults, and none for a replay |
| AttemptBudget.Budget.ForRun | app/decision/budget.py:74-96 | a replay is allowed nothing; a live run what settings allow, with the full probe queries unless a limit is set |
| AttemptBudget.Budget.Take | app/decision/budget.py:107-116 | a call is counted exactly when its kind has one left and, but for the first decision, time and tokens remain; a refusal counts nothing and remembers the first limit |
| AttemptBudget.Budget.TakeProbeQuery | app/decision/budget.py:118-123 | a probe query is counted exactly when one is left and time and tokens remain |
| SqlSafety.SqlSafetyService.Plan | app/sql/service.py:157-472 | the refusal, or the exception, of the first gate that refuses or breaks; past them all the database's refusal if it has one, and otherwise a plan of the candidate's text rewritten, respelled, widened, ordered and printed, issued and explained within limits; one text is judged, nothing is sent meanwhile and issued plans stay as they are |
| SqlSafety.PastEveryGate | app/sql/service.py:174-316 | past every gate, both the text and what the grain gate rewrote it to passed parser, policy and authority, and a rewrite was reported safe |
| SqlSafety.SqlSafetyService.Issue | app/sql/service.py:365-444 | a plan is issued if and only if the database connects, explains the final text within the row and cost limits, and the transaction closes cleanly; otherwise the failure is the first of these |
| SqlSafety.SqlSafetyService.Execute | app/sql/service.py:479-488 | a plan is sent, once, exactly when it is the very object this service issued, and what comes back is what the database answered that sending |
| SqlSafety.SqlSafetyService.Explore | app/sql/service.py:557-572 | a probe passes the same gates, is judged once and sent at most once, and the recorder and the run's trace are as before on every exit, whichever gate or recording step raises, before or after the plan is issued or sent |
| SqlSafety.SentIsIssued | app/sql/service.py:479-488 | over every sequence of calls, each text sent was explained within the limits and then issued, as the same plan object |
| SqlSafety.IssuedMore | app/sql/service.py:430-444 | issuing under a fresh id leaves every plan issued before findable and unchanged |
| SqlSafety.OthersPlan | app/sql/service.py:479-488 | a plan one service issued is refused by any other, unsent |
| DecisionRun.Run.Answer | app/decision/service.py:101-167 | for every sequence of replies, failures, clock readings, results and exceptions the run ends, having done at each point the step that was due and no other, and answers what that history comes to; only an exception, at a planning, a run, a probe or a reading, stops it short; the context decides whether it is entered, a live run then asks for a decision and a replay of a usable answer plans its SQL at once; the provider's own log grows by exactly the calls of the history, each kind within its allowance, none for a replay; the gates judge exactly its texts and at most two explored ones per counted probe; at most two texts are sent beside explored ones |
| RunRules.RunsTwice | app/decision/service.py:678-731 | over every history that follows the rules answering SQL runs at most twice, and nothing follows the second run |
| RunRules.Begins | app/decision/service.py:118-144 | a history over and entered has a first decision asked for, or as a replay of a usable answer its SQL planned, as its second step |
| RunRules.NoDecisionWhy | app/decision/service.py:221-309 | a run ends without a decision only where the first is unusable, the model asks to explore and may not, or its last round brought no usable decision or one that still explores with no round left |
| RunRules.RepairFollows | app/decision/service.py:656-676 | a planning outcome with feedback is sent back to the model while a repair is left, unless the planned text is a respelling or time or tokens are used up |
| RunRules.RepairFollowsRun | app/decision/service.py:699-731 | so is the first run's result when it is out of range or an error the model is told of |
| RunRules.ShownIs | app/decision/service.py:825-857 | rows shown are of the plan run last, made of the SQL of the decision in force or of its respelling |
| RunRules.RefusedIs | app/decision/service.py:825-881 | a rejection reported is what planning that SQL came to; a decision reported without SQL neither answers nor explores |
| RunRules.FinalEndsRun | app/decision/service.py:656-676 | where the gates finally reject answering SQL nothing follows, unless planning it raised, which ends the run too: no call, no repair, no plan |
| RunRules.RunPassedGates | app/sql/service.py:157-363 | each plan run to answer was the latest made, of a text that with its rewrite passed every gate, and what was sent is that text with the last rewrites |
| RunRules.FinalIsFinal | app/decision/feedback.py:127-205 | the two tables agree: an authority or write rejection, a forbidden table, column or catalog has no feedback |
| DecisionRun.Run.Propose | app/decision/service.py:906-938 | a call is asked of the provider if and only if one of its kind is left and, but for the first decision, time and tokens remain; its log then grows by that one call, and what comes back is its reply, in time |
| DecisionRun.Run.WidenContext | app/decision/service.py:311-393 | a refusal for omitted tables is put to the model again if more context may be and is resolved; the step done is the one due, and the decision left is the one in force |
| DecisionRun.Run.LookFirst | app/decision/service.py:395-434 | the same for a clarification or refusal made before looking, while exploring is allowed |
| DecisionRun.Run.ProbeRounds | app/decision/service.py:469-535 | the rounds go on while the model explores and a round is left, and end with a decision that no longer explores, or none |
| DecisionRun.Run.RunProbes | app/decision/service.py:1038-1101 | at most three probes run per round, each counted first and each counted one judged, passed over only at a limit; per counted one the gates judge, and the database is sent, at most two texts |
| DecisionRun.Run.RunReadings | app/decision/service.py:1009-1036 | results are returned only when every reading was counted and ran: each is, untruncated, what the database answered a plan of exactly that SQL; without them some reading was refused by a limit or had no result in full |
| DecisionRun.Run.CheckReadings | app/decision/service.py:537-641 | a clarification with two or three readings is put to the model when the check is allowed, and is replaced exactly when all readings ran untruncated and agree or settings assume, by an answer with the first reading's SQL; silently when they agree, and otherwise naming that reading and carrying each other one with its SQL and result |
| Results.SortCompares | app/decision/feedback.py:249-254 | sorted lists of texts are equal exactly when the lists hold the same texts, each as often |
| Results.AgreeMeans | app/decision/feedback.py:249-254 | two results compare equal exactly when they have as many columns and the same rows, each as often, where no two rows are written alike |
| DecisionRun.Run.AdmitSql | app/decision/service.py:656-676 | the decision's own SQL is planned first; a final rejection of it is returned with nothing after it, and only an outcome with feedback is repaired |
| DecisionRun.Run.Execute | app/decision/service.py:678-697 | the attempt answered with is the one the history comes to: a refused plan is never run, and an answer is the database's to the attempt's own plan |
| DecisionRun.Run.CheckResult | app/decision/service.py:699-731 | a first result is looked into exactly when it is empty or out of range while results are checked, or an error described to the model; any other stands with no later step |
| DecisionRun.Run.CheckEmptyResult | app/decision/service.py:733-780 | an empty result's literals are looked up; a respelling found is planned at once, and without one a repair follows if one is left |
| Reports.InMemoryReportStore.Save | app/reports/store.py:45-50 | a save is stored when its version is the stored one's successor, or 1 for an id not stored, and is otherwise refused with the store unchanged |
| Reports.InMemoryReportStore.Claim | app/reports/store.py:62-67 | a refresh is moved exactly when the stored due time is the expected one |
| Reports.InMemoryReportStore.Due | app/reports/store.py:55-60 | the stored reports due by now, all of them and no other |
| Reports.InMemoryReportStore.RunDue | app/reports/service.py:334-359 | over any list of reports read as due, those claimed are exactly the ones still stored as due at the time read, each claimed once and due no longer; nothing else of any report changes |
| Reports.Following | app/reports/service.py:344-350 | the next refresh lies after now, an interval after the due one unless that turn was missed too, and never more than an interval away |
| Reports.EditPinned | app/reports/service.py:580-609 | no update, rename, schedule or accept moves a report to another id or connection or lets a card hold SQL its run did not execute |
| ReportEdits.EditMakes | app/reports/service.py:149-204 | an edit is refused exactly for its reasons (a copy saved over, two cards of one id, a run that is unknown, another connection's or not executed, no name, no saved query); otherwise an update saves each card with the SQL, question and basis of the card it is carried over from, or of its run in the log, a rename and a schedule leave the cards alone, and accepting changes one basis |
| ReportEdits.HasSql | app/reports/service.py:580-609 | a saved card has SQL if and only if it is a query card with a run and, if carried over, what it comes from has SQL |
| ReportEdits.ChangeWrites | app/reports/service.py:549-560 | a change is stored, as the next version and alone, if and only if it is not refused and was made from the version stored |
| ReportEdits.StoredCardsBacked | app/reports/service.py:580-609 | in every reachable store, where only query cards are given runs, each card with a run has that run's SQL and question |
| ReportEdits.StoredIdsApart | app/reports/service.py:149-162 | in every reachable store no report has two cards of one id |
| ReportEdits.NoteLosesSql | app/reports/service.py:580-596 | a note saved with a run and later made a query card of it is carried over without SQL |
| Reports.WrittenKeeps | app/reports/service.py:549-560 | a save is written only over the last commit, which the copy it was made from is |
| Reports.Keeps | app/reports/store.py:45-67 | every step of every actor keeps the invariant: versions grow by exactly one, each commit derives from its immediate predecessor, every copy held is of some commit, every card with SQL is pinned |
| Reports.StoredCardsPinned | app/reports/service.py:149-191 | in every reachable store a card that has SQL holds the executed SQL of the executed run it names, on the report's own connection |
| Reports.OneOfTwoSaves | app/reports/store.py:86-99 | over every interleaving, of two saves made from one version at most one is written |
| Reports.NeverRevived | app/reports/store.py:45-53 | no save brings a deleted report back |
| Reports.ClaimedOnce | app/reports/store.py:115-123 | one due time is claimed a second time only if in between a save from some copy wrote a due time no later, which the copy and the edit tell before the save |
| Reports.ClaimableAgain | app/reports/store.py:45-67 | right after a save a due time can be claimed if and only if the save wrote it |
| Reports.ClaimedTwice | app/reports/store.py:62-67 | a save writes back the due time it read, so an edit opened before a claim lets it be claimed again |

## Left out

- FilteredRows: covers queries in which no SELECT reading the filtered table has a RIGHT or FULL join and no CTE has the table's name; there the source skips or misses the filter. DISTINCT ON, USING and NATURAL joins are outside the query language.
- Untouched: whether a SELECT is narrowed is read off the tree as it was pinned, which applying other filters does not change.
- SameChildSums: about groups before HAVING, ORDER and LIMIT. Subqueries that read the child are not covered.
- RewrittenRows: about queries that group, aggregate or have HAVING, which all the source rewrites do, without an aggregate inside an aggregate; groups come in the order the query without the child join meets them.
- EachOnce: the rewrite's target is passed as a shape (aliases, key columns, measures, picked names); resolving the edge and measures in the catalog, and every reason to abstain that is only a name check, is not modelled. Trees are rewritten as values, so the in-place change of a shared node is not captured.
- NewFromRows: like EachOnce, OriginalSpreads, SameGroups, SameChildSums, SameGroupedSums, ParentAggregates and RewrittenRows, about queries in which no join after the child's names the child; the source does not check this, and `ChildScope` shows what happens where it fails. PostgreSQL itself refuses such a rewritten text, while the model reads the missing alias as NULL.
- KeptOnce: about equalities ANDed into WHERE, or into an ON that is true wherever the source has a row; others are gathered too, and `JoinKeysUnderOr` shows what they let through.
- PickNames: where the picked name is a derived table's, which `PickedTwice` tells exactly, PostgreSQL refuses the rewritten text and the theorems do not speak of it.
- RowKeysSound: for keys output under their own names, with distinct output names and no `*` beside DISTINCT; DISTINCT ON and the outward refinement of repeating sources are not modelled.
- Fan-out tracing of exposed measures and its lineage and scope-connection analyses (`_exposed_measure`, `_keeps_native_grain`, `_lineage`): the validator's code is an input of the boundary in GrainRuntime.
- TracedOutput: for queries PostgreSQL accepts, in which no `*` shows one column name twice, over a database of catalog tables; renaming column lists, qualified stars and unqualified columns other than those read through `*` are left to name resolution.
- UnlinkedTables: links made by USING columns are left out, as USING is outside the query language; the tables come in any order, where the source sorts them.
- StoredCardsBacked: holds only where no card but a query card is given a run; `HasSql` says what each save does without that, and `NoteLosesSql` shows a card it fails for.
- RewriteSettles: for respelling, where a stored spelling is its own spelling, as `CheckTwice` finds.
- ColumnFirst: over numbers, with LIKE as any relation.
- OuterLinksHold: the alias must have a row of its own; a link in the ON of a RIGHT or FULL join is not claimed for rows that pad it.
- VerdictKept: about the ORDER BY of the statement itself, or of the body of its WITH; those of subqueries and of windows, which get the same change, and DISTINCT ON are not modelled. Equalities are taken per select, as the join check takes them, and whole-number checks on LIMIT are left out.
- ValuedRowsFirst: the rows of the query come with their key values, whatever expressions those are of; whether the text says NULLS FIRST anywhere is an input, and equal rows may come in any order.
- TablesChained: under outer joins `OuterLinksHold` says what is left of each link.
- ReadsBack: new values are taken as already stripped, one to fifty of them; the breadth-first walk of the parsed tree is taken from the SQL library, and conditions inside function arguments are opaque.
- DropKeepsRest: one WHERE or inner ON clause at a time; dropping from an outer join's ON is not claimed.
- Check: which column a literal is compared with, and how it resolves to a table, is an input here; the walk that finds them is in PostGates. ASCII text only.
- ShortestPath: neighbours are taken in any order, where the source sorts them.
- Plan: the parser, the policy, the authority, the grain coordinator, the respelling and the database's estimate are inputs of one call; their own properties are the other modules'. Trace metadata is reduced to stage names.
- Answer: context resolution, trace metadata and wording of messages are reduced to their outcomes.
- AgreeMeans: how a row is written as text is an input, taken to write no two rows alike.
- Keeps: roles, sharing, titles' trimming, filters and layout are not modelled; adding a card is an update with the version it read. New report ids are taken never to repeat.
- Snapshot retention, the SQL-backed stores' transactions, list ordering: easy members or I/O.
- Window functions, LATERAL, VALUES, UNNEST, recursive CTEs and GROUPING SETS: outside the query language; ORDER BY is outside it but for statements.
- Governed derived measures, floating-point rounding, time zones, collations and Unicode case folding: the model uses exact integers and ASCII text.
- SQL parsing and printing, database sessions, prompts, HTTP routes, telemetry and the user interface: foreign code, I/O or display.
