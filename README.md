# FlowPrizeVault benchmark and test drivers, modelled in Dafny

FlowPrizeVault is a prize-linked savings vault on the Flow blockchain. Its
Python drivers run Flow CLI transactions and scripts against an emulator. They
measure the computation units (CU) that a draw costs, and they run an
end-to-end test suite. This project models the drivers' deterministic decision
logic:

- how a transaction or script result is classified from its exit code, its
  output streams and its decoded JSON;
- how a transaction id is found, and how it is matched against the emulator's
  computation report;
- how the draw-status script's reply is read;
- the batch loops of a draw, with their ceilings and stop conditions, and the
  totals they add up;
- the summaries and statistics printed across runs;
- the test suite's pass/fail counters, its pool-ID parser and ID-array builder,
  its choice of pool and its exit code.

The emulator, the Flow CLI and the report endpoint are not modelled. What they
hand back is a parameter: a `CliOutput` made of the exit code, stdout, stderr
and `json.loads(stdout)` when stdout is JSON. The report is a `Transactions`
snapshot, an ordered dictionary from transaction id to its computation and
memory. A loop that makes one call per iteration takes the sequence of replies
those calls would receive.

Files:

- `common.dfy`: Option, sums, Python floor division, min and max, and two lemmas
  about means and ratios.
- `text.dfy`: Python string operations restricted to what the drivers use:
  substring tests, ASCII `lower()`, `strip()`, `split()`, `join()`, decimal
  conversion and `int()`. It also has a leftmost search in the style of
  `re.search`, which each specific regular expression plugs into as a
  match-at-position function.
- `json.dfy`: decoded JSON values, Python truthiness, `dict.get`, and the CLI
  reply.
- `report.dfy`: the computation report, with distinct keys.
- `draw_computation.dfy`: `benchmark/benchmark_draw_computation.py`.
- `computation_benchmark.dfy`: `benchmark_computation.py`.
- `complete_draw.dfy`: `benchmark/benchmark_complete_draw.py`.
- `lazy_users.dfy`: `benchmark/benchmark_lazy_users.py`.
- `prize_savings_tests.dfy`: `test_prize_savings.py`, with its module-global
  counters as the class `TestTally`.

Each driver has its own `run_flow_tx`, and each applies a different rule. The
model keeps every variant separate, and lemmas relate them where they agree
(for example `CompleteDraw.SameClassificationAsDrawBenchmark`).

One behaviour follows from the code as written: `run_command` in
`test_prize_savings.py` reports a timeout as exit code -1 with "Command timed
out". That text holds no error word, and the exit code is not consulted, so the
call passes as a success (`PrizeSavingsTests.TimeoutPasses`).

## Model

| member | source | states |
|---|---|---|
| DrawComputation.FirstIdWord | benchmark/benchmark_draw_computation.py:472-476 | the id taken from a text line is the first word that starts with `0x` or is 64 characters long; there is none exactly when no word qualifies |
| DrawComputation.RunFlowTx | benchmark/benchmark_draw_computation.py:428-486 | the classification of one call (JSON rule first, then the text rule on both streams); its properties are JsonClassification, JsonIgnoresExitCode, TextClassification, TextSuccessNeedsExitZero and ComputationFallback |
| DrawComputation.JsonClassification | benchmark/benchmark_draw_computation.py:453-466 | a JSON reply fails exactly when neither `status` nor `statusString` is SEALED and the error (or `errorMessage`) is truthy; otherwise it succeeds, and the computation is the JSON computation field |
| DrawComputation.JsonIgnoresExitCode | benchmark/benchmark_draw_computation.py:453-486 | once stdout is JSON, the exit code and stderr do not change the outcome |
| DrawComputation.TextClassification | benchmark/benchmark_draw_computation.py:467-484 | a non-JSON reply whose stdout or stderr contains "error" or "panic", in any casing, is a failure |
| DrawComputation.TextSuccessNeedsExitZero | benchmark/benchmark_draw_computation.py:483 | a non-JSON reply succeeds only with exit code 0 |
| DrawComputation.TextSuccessExactly | benchmark/benchmark_draw_computation.py:467-484 | a non-JSON reply succeeds exactly when the exit code is 0 and the lower-cased combined streams contain neither "error" nor "panic" |
| DrawComputation.ComputationFallback | benchmark/benchmark_draw_computation.py:457-460 | the computation is a truthy `computationUsed`; otherwise `gasUsed`; otherwise 0 |
| DrawComputation.CorrelateLoop | benchmark/benchmark_draw_computation.py:853-869 | the report loop returns the cost of the entry whose key equals the tx id; failing that, the cost of the only entry when there is exactly one; otherwise (0, 0) |
| DrawComputation.Correlate | benchmark/benchmark_draw_computation.py:853-869 | the correlation rule (exact key, else the only entry, else (0, 0)); CorrelateLoop, CorrelateExact, CorrelateFallback and CorrelateOrderFree state it |
| DrawComputation.CorrelateExact | benchmark/benchmark_draw_computation.py:860-865 | a report entry under the tx id gives that entry's computation and memory |
| DrawComputation.CorrelateFallback | benchmark/benchmark_draw_computation.py:866-869 | without a matching key, a one-entry report gives its entry's cost and any other report gives (0, 0) |
| DrawComputation.CorrelateOrderFree | benchmark/benchmark_draw_computation.py:857-869 | the correlated cost does not depend on the order in which the report lists its entries |
| DrawComputation.ExecuteDrawPhase | benchmark/benchmark_draw_computation.py:832-878 | the phase record carries the call's success and its correlated cost; its tx id is the reported id, or "" when that is not truthy; it has an error exactly when the call failed, and that error is the call's output cut to 200 characters; it is filed under the phase name |
| DrawComputation.Truncate | benchmark/benchmark_draw_computation.py:877 | raw output is cut to its first 200 characters, and output of at most 200 characters is kept whole |
| DrawComputation.ConvertFlag | benchmark/benchmark_draw_computation.py:897-901 | the strings "true" and "false" become booleans; every other value is kept |
| DrawComputation.FieldsMapContents | benchmark/benchmark_draw_computation.py:891-904 | the status has a key for exactly the names of the struct's fields; each name maps to the converted value of its last field |
| DrawComputation.StatusFromFields | benchmark/benchmark_draw_computation.py:891-902 | the field loop builds the status map on which that lemma is proved |
| DrawComputation.TextStatus | benchmark/benchmark_draw_computation.py:912-920 | the text fallback has exactly the four flags; `isBatchComplete` is whether "isBatchComplete: true" occurs |
| DrawComputation.GetDrawStatus | benchmark/benchmark_draw_computation.py:880-920 | a successful structured reply with at least one field gives the field map, and anything else gives the text fallback |
| DrawComputation.LastBatchCompleteField | benchmark/benchmark_draw_computation.py:893-902 | finds the last field named `isBatchComplete`; there is none exactly when no field has that name |
| DrawComputation.DoneMeansComplete | benchmark/benchmark_draw_computation.py:998-1001 | the batch loop's completion test on the status equals the direct reading of the reply |
| DrawComputation.MaxBatches | benchmark/benchmark_draw_computation.py:978 | the batch ceiling `user_count // batch_size + 5`, with Python floor division; ProcessBatches and RunFullDrawBenchmark use it |
| DrawComputation.BatchLoopStops | benchmark/benchmark_draw_computation.py:975-1003 | how the batch loop may stop after `count` batches: within the ceiling, at least one batch when the ceiling is positive, every earlier batch succeeded without completing, and an early stop is a failure or a complete status; ProcessBatches ensures it |
| DrawComputation.ProcessBatches | benchmark/benchmark_draw_computation.py:975-1003 | the batch loop stops within the ceiling, at the first failed batch (which still counts) or once the status reads complete; its total is the sum of the successful batches' computations |
| DrawComputation.RunFullDrawBenchmark | benchmark/benchmark_draw_computation.py:934-1083 | no run when the start fails; otherwise the exact phase list (start, batches, then randomness and completion only if they succeed); the run's totals are the sums over those phases |
| DrawComputation.RunTotalSplits | benchmark/benchmark_draw_computation.py:1066-1068 | the run total over concatenated phase lists is the sum of the two totals |
| DrawComputation.SucceededCostBounds | benchmark/benchmark_draw_computation.py:989-994 | with non-negative costs, the batch total is non-negative and at least each successful batch's cost |
| DrawComputation.BatchPhase | benchmark/benchmark_draw_computation.py:1273 | finds a phase named `processDrawBatch` from the run; there is none exactly when no phase has that name |
| DrawComputation.BatchComputations | benchmark/benchmark_draw_computation.py:1268-1275 | never more computations than runs; BatchComputationsAppend and BatchComputationsSources say which |
| DrawComputation.BatchComputationsAppend | benchmark/benchmark_draw_computation.py:1268-1275 | one more run appends the total of its first `processDrawBatch` phase, and a run with no record or no such phase appends nothing |
| DrawComputation.BatchComputationsSources | benchmark/benchmark_draw_computation.py:1268-1275 | the list is, in run order, the first batch phase's total of exactly the runs that have one |
| DrawComputation.AnalyzeVariability | benchmark/benchmark_draw_computation.py:1295-1300 | there is an analysis exactly when there are at least two runs; min and max are elements of the runs and bound all of them |
| DrawComputation.VariabilityBounds | benchmark/benchmark_draw_computation.py:1295-1311 | the mean lies between min and max; with a positive minimum the ratio is at least 1; otherwise it is 0; the variance is high exactly when max > 2 * min with min > 0 |
| DrawComputation.VariabilityExample | benchmark/benchmark_draw_computation.py:1297-1308 | five runs of 320, 340, 9500, 330 and 335 CU give ratio 29.6875, which is flagged as high variance |
| ComputationBenchmark.NewResult | benchmark_computation.py:76-89 | a fresh result has zero totals and zero averages |
| ComputationBenchmark.TotalDrawExcludesSetup | benchmark_computation.py:111-117 | the draw total ignores the pool creation, user setup, deposit and funding costs |
| ComputationBenchmark.TotalDrawAddsBatch | benchmark_computation.py:100-117 | recording one more batch raises the draw total by that batch's cost |
| ComputationBenchmark.AveragesBetween | benchmark_computation.py:95-109 | the averages are 0 for empty lists or no users; otherwise they lie between the list's min and max |
| ComputationBenchmark.FirstPartial | benchmark_computation.py:164-166 | finds the first report key that contains the tx id or is contained in it, case-insensitively; there is none exactly when no key does |
| ComputationBenchmark.GetTransactionComputation | benchmark_computation.py:151-168 | the lookup (empty id none, exact key, else first partial match, else none); ExactMatchWins, PartialMatchOrder and ComputationHasSource state it |
| ComputationBenchmark.ExactMatchWins | benchmark_computation.py:160-161 | a key equal to the tx id gives its entry's computation, whatever the partial matches are |
| ComputationBenchmark.PartialMatchOrder | benchmark_computation.py:164-166 | without an exact key, the first partially matching key in report order decides |
| ComputationBenchmark.ComputationHasSource | benchmark_computation.py:151-168 | any computation found comes from some report entry; an empty id, or one without an exact or partial match, gives none |
| ComputationBenchmark.LabelledIdAt | benchmark_computation.py:199-201 | a labelled match is `transaction id:` in any casing, followed by a run of hex digits |
| ComputationBenchmark.JsonIdAt | benchmark_computation.py:203-205 | a JSON match is `"id":` followed by a quoted run of lower-case hex digits |
| ComputationBenchmark.ParseTxId | benchmark_computation.py:196-206 | any id found is a non-empty run of hex digits |
| ComputationBenchmark.NoMarkerNoId | benchmark_computation.py:196-206 | output with neither marker has no id |
| ComputationBenchmark.ParseLabelled | benchmark_computation.py:199-201 | `Transaction ID: <hex>` parses back to exactly that hex string |
| ComputationBenchmark.ColonedErrorIsError | benchmark_computation.py:234-235 | "error:" in the output implies "error", so the two-part test reduces to "error:" |
| ComputationBenchmark.TransactionSuccess | benchmark_computation.py:226-237 | a transaction succeeds exactly when the exit code is 0 and the lower-cased output has none of "error:", "panic" or "revert" |
| ComputationBenchmark.RunTransaction | benchmark_computation.py:209-287 | the classification of one call; TransactionSuccess, ColonedErrorIsError and ComputationNeedsIdAndSuccess state it |
| ComputationBenchmark.ComputationNeedsIdAndSuccess | benchmark_computation.py:239-244 | a computation is looked up only for a successful transaction with a parsed id |
| ComputationBenchmark.Flag | benchmark_computation.py:315-323 | a flag is true when its true-form occurs; false when only its false-form occurs; absent otherwise |
| ComputationBenchmark.TimeUntilAt | benchmark_computation.py:325-327 | a `timeUntilNextDraw` match captures a non-empty run of digits and dots |
| ComputationBenchmark.GetDrawStatus | benchmark_computation.py:305-329 | a failed script gives exactly the error record carrying its stderr |
| ComputationBenchmark.BatchCompleteFromOutput | benchmark_computation.py:370-373 | the batch is complete exactly when the script succeeded and `"isBatchComplete": true` occurs; the true form wins over the false form |
| ComputationBenchmark.DepositChunksFacts | benchmark_computation.py:618-631 | deposits go in chunks of 1 to 50, all but the last of exactly 50; they sum to the user count; there are ceil(n / 50) of them |
| ComputationBenchmark.DepositChunks | benchmark_computation.py:618-631 | the `min(50, remaining)` chunks of the deposit loop; DepositChunksFacts states their sizes, sum and number |
| ComputationBenchmark.MeasuredCus | benchmark_computation.py:628-630 | only non-zero computations are recorded |
| ComputationBenchmark.MeasuredCusAppend | benchmark_computation.py:628-630 | one more result adds its computation exactly when that computation is non-zero |
| ComputationBenchmark.Deposits | benchmark_computation.py:618-631 | the deposit loop issues exactly the chunk sequence, records the measured costs and totals them |
| ComputationBenchmark.MultiUserMaxBatches | benchmark_computation.py:662 | the batch ceiling `user_count // batch_size + 10`, with Python floor division; RunMultiUserBenchmark passes it to MultiUserBatches |
| ComputationBenchmark.MultiUserStops | benchmark_computation.py:661-677 | how the multi-user loop may stop after `n` batches: within the ceiling, at least one batch when the ceiling is positive, no earlier complete status, and an early stop only on a complete status; MultiUserBatches ensures it |
| ComputationBenchmark.MultiUserBatches | benchmark_computation.py:661-677 | the batch loop runs until the status reads complete or the ceiling is reached, and never stops on a failure; it records the measured costs |
| ComputationBenchmark.RunMultiUserBenchmark | benchmark_computation.py:587-699 | every cost field of the result is stated; without a ready draw or after a failed start, the batch list is empty, the randomness and completion costs stay 0, and the draw total is just the start cost |
| ComputationBenchmark.Kept | benchmark_computation.py:842 | the probe filter: a success with a computation that is present and positive; Probes keeps exactly these and divides only for them |
| ComputationBenchmark.Probes | benchmark_computation.py:836-884 | only successful probes with a positive computation are recorded |
| ComputationBenchmark.FailureEndsProbing | benchmark_computation.py:862-884 | a failed probe ends the probing |
| ComputationBenchmark.ProbeBatchSizes | benchmark_computation.py:836-884 | the probing loop yields exactly the probe sequence |
| ComputationBenchmark.EstimateLimit | benchmark_computation.py:905-930 | there is an estimate exactly when some probe succeeded |
| ComputationBenchmark.EstimateBounds | benchmark_computation.py:905-909 | the theoretical maximum is the largest user count whose extrapolated cost fits the 9999 limit (0 without a positive average); the recommended maximum is 90% of it rounded down; both are non-negative |
| ComputationBenchmark.EstimateExample | benchmark_computation.py:905-909 | 3075 users at 9948 CU give a theoretical maximum of 3090 users and a recommended 2781 |
| CompleteDraw.SameClassificationAsDrawBenchmark | benchmark/benchmark_complete_draw.py:281-292 | success is decided exactly as in the draw-computation driver |
| CompleteDraw.RunFlowTx | benchmark/benchmark_complete_draw.py:256-302 | the classification of one call; SameClassificationAsDrawBenchmark and MeasuredOnlyByExactId state it |
| CompleteDraw.RunFlowScript | benchmark/benchmark_complete_draw.py:304-315 | success is exit code 0 without "error" or "panic" in the lower-cased combined output, which it returns |
| CompleteDraw.GetDrawStatus | benchmark/benchmark_complete_draw.py:421-432 | the two flags are substring tests on the script output; StatusIgnoresScriptFailure states how they relate to the script's success |
| CompleteDraw.MeasuredOnlyByExactId | benchmark/benchmark_complete_draw.py:295-302 | a computation is measured only when asked for, for a truthy id, on an exact report key; otherwise it is 0 |
| CompleteDraw.StatusIgnoresScriptFailure | benchmark/benchmark_complete_draw.py:421-432 | the status flags come from the text even when the script failed |
| CompleteDraw.ProcessBatches | benchmark/benchmark_complete_draw.py:478-498 | at most 100 batches, stopping at a failure or once the status reads complete; the total is the sum of the successful batches' computations |
| CompleteDraw.RunDrawPhases1To3 | benchmark/benchmark_complete_draw.py:448-515 | no phases when funding or the start fails; otherwise the start and batch totals, then the randomness cost exactly when that call succeeds, keyed by phase name in order |
| CompleteDraw.LevelBands | benchmark/benchmark_complete_draw.py:623-629 | HIGH above 5000, MEDIUM above 1000, LOW otherwise; the level never falls as the computation rises |
| CompleteDraw.LevelOf | benchmark/benchmark_complete_draw.py:623-629 | the level classification; LevelBands states its bands and monotonicity |
| CompleteDraw.RunSingleBenchmark | benchmark/benchmark_complete_draw.py:579-631 | a run errs exactly when user creation or phases 1-3 fail, and then has no phases; otherwise completion is recorded, as 0 when it fails |
| CompleteDraw.SingleBenchmarkFacts | benchmark/benchmark_complete_draw.py:614-629 | a successful run's level and limit flag follow its completion cost |
| CompleteDraw.CountDisjoint | benchmark/benchmark_complete_draw.py:684-685 | the low and high counts together never exceed the number of runs |
| CompleteDraw.Summarize | benchmark/benchmark_complete_draw.py:678-704 | there is no summary exactly when there are no computations |
| CompleteDraw.SummaryBounds | benchmark/benchmark_complete_draw.py:697-704 | min ≤ mean ≤ max; the range is max − min; the counts fit in the number of runs |
| CompleteDraw.SummaryRatio | benchmark/benchmark_complete_draw.py:702 | the ratio is max divided by the larger of min and 1 |
| CompleteDraw.Computations | benchmark/benchmark_complete_draw.py:678 | as written, every result contributes one computation, with 0 for a run without completion |
| CompleteDraw.FailedRunCountsAsLow | benchmark/benchmark_complete_draw.py:678 | a run that failed before completion enters the statistics as 0 and is counted LOW |
| CompleteDraw.ValidComputations | benchmark/benchmark_complete_draw.py:678 | corrected: only error-free runs contribute |
| CompleteDraw.ValidComputationsFaithful | benchmark/benchmark_complete_draw.py:678 | the corrected list is empty when every run failed, and equals the as-written list when none failed |
| CompleteDraw.ValidComputationsAppend | benchmark/benchmark_complete_draw.py:678 | corrected: a failed run adds nothing, and an error-free run appends its `completePoolDraw` cost |
| CompleteDraw.ValidComputationsSources | benchmark/benchmark_complete_draw.py:678 | corrected: the list is, in run order, the `completePoolDraw` cost of exactly the error-free runs, in any mix of failed and successful runs |
| CompleteDraw.AdjustUsersFacts | benchmark/benchmark_complete_draw.py:783-784 | the adjusted user count is at least the winner count; it is kept when already large enough; adjusting twice changes nothing |
| CompleteDraw.AdjustUsers | benchmark/benchmark_complete_draw.py:783-784 | fewer users than winners become winners + 50; AdjustUsersFacts states its properties |
| LazyUsers.ResultAtStart | benchmark/benchmark_lazy_users.py:82-84 | `Result:\s*(\d+)` captures the number printed after `Result: ` |
| LazyUsers.RunFlowScript | benchmark/benchmark_lazy_users.py:68-75 | success is the exit code alone; the output is both streams |
| LazyUsers.GetReceiverCount | benchmark/benchmark_lazy_users.py:77-90 | the receiver count read from the script; ReceiverCountResult, ReceiverCountBare and ReceiverCountFailure state it |
| LazyUsers.ReceiverCountResult | benchmark/benchmark_lazy_users.py:77-84 | output `Result: N` gives N |
| LazyUsers.NoResultMarker | benchmark/benchmark_lazy_users.py:82-83 | output without `Result:` never matches the pattern |
| LazyUsers.LastLineOfNumber | benchmark/benchmark_lazy_users.py:87 | a padded number alone on its line is the last line of the stripped output |
| LazyUsers.ReceiverCountBare | benchmark/benchmark_lazy_users.py:86-87 | a bare, possibly padded, number is read by `int()` on the last line |
| LazyUsers.ReceiverCountFailure | benchmark/benchmark_lazy_users.py:79-90 | a failed script gives -1 |
| LazyUsers.TextIdAt | benchmark/benchmark_lazy_users.py:157-159 | a text id is exactly 64 lower-case hex digits after `ID` and whitespace |
| LazyUsers.Classification | benchmark/benchmark_lazy_users.py:149-167 | a JSON error or a FAILED status fails with computation 0; otherwise success is exit code 0 without `"error"` in the lower-cased output |
| LazyUsers.ComputationLookup | benchmark/benchmark_lazy_users.py:121-134 | the computation is 0 without a string id or a report entry for it; a non-zero value is that entry's computation |
| LazyUsers.ComputationForTx | benchmark/benchmark_lazy_users.py:121-134 | the report entry's computation, 0 without an entry or a computation; ComputationLookup states it |
| LazyUsers.RunFlowTx | benchmark/benchmark_lazy_users.py:136-167 | the classification of one call; Classification, ComputationLookup and TextIdFirst state it |
| LazyUsers.TextIdFirst | benchmark/benchmark_lazy_users.py:155-159 | non-JSON output starting `ID <64 hex>` yields that id |
| LazyUsers.BatchesSucceed | benchmark/benchmark_lazy_users.py:284-290 | every batch issued until the first done batch or the ceiling succeeds; FailedBatchFailsDraw and DoneBatchEndsDraw state its cases, and RunCompleteDraw is proved against it |
| LazyUsers.FailedBatchFailsDraw | benchmark/benchmark_lazy_users.py:285-290 | a failed batch before any completed one fails the draw |
| LazyUsers.DoneBatchEndsDraw | benchmark/benchmark_lazy_users.py:285-290 | a batch reporting "remaining: 0" or "batch complete" ends the loop, so later batches cannot fail the draw |
| LazyUsers.RunCompleteDraw | benchmark/benchmark_lazy_users.py:277-301 | the draw succeeds exactly when the start, every issued batch, the request and the completion succeed |
| LazyUsers.RemoveSpaces | benchmark/benchmark_lazy_users.py:350 | `replace(' ', '')` leaves no space and never lengthens the text |
| LazyUsers.AlreadyCompleteShorter | benchmark/benchmark_lazy_users.py:333 | the "batch processing already complete" test is subsumed by "already complete" |
| LazyUsers.StepOf | benchmark/benchmark_lazy_users.py:331-353 | which of the four branches a batch reply takes; StepMeaning states them |
| LazyUsers.StepMeaning | benchmark/benchmark_lazy_users.py:331-353 | each batch reply is exactly one of: failure, already complete, success with nothing remaining, success; a success carries its computation |
| LazyUsers.BenchmarkProcessDrawBatch | benchmark/benchmark_lazy_users.py:303-360 | no result and no batches when the start fails; otherwise the batch loop's total and its `batch_count`; at most 100 batches are counted |
| LazyUsers.ProcessBatchLoop | benchmark/benchmark_lazy_users.py:326-353 | the loop's result is BatchLoop and its `batch_count` is BatchCount over the batch steps, never above 100 |
| LazyUsers.BatchLoop | benchmark/benchmark_lazy_users.py:326-353 | the loop's outcome by step kind; BatchLoopSkips, RealFailureLosesAll, AlreadyCompleteKeepsTotal, NothingRemainingEndsLoop and CeilingEndsLoop state it |
| LazyUsers.BatchCount | benchmark/benchmark_lazy_users.py:327-343 | the loop's `batch_count`, one per successful batch; BatchCountSkips and the four end lemmas state it |
| LazyUsers.BatchCountSkips | benchmark/benchmark_lazy_users.py:341-343 | each successful batch that leaves receivers is counted once, in order |
| LazyUsers.BatchLoopSkips | benchmark/benchmark_lazy_users.py:328-353 | successful batches that leave receivers add their computations in order |
| LazyUsers.RealFailureLosesAll | benchmark/benchmark_lazy_users.py:331-340 | a failure that is not "already complete" loses the whole measurement; the batches before it were counted |
| LazyUsers.AlreadyCompleteKeepsTotal | benchmark/benchmark_lazy_users.py:331-336 | an "already complete" failure keeps the total of the `n` batches before it, and `n` are counted |
| LazyUsers.NothingRemainingEndsLoop | benchmark/benchmark_lazy_users.py:342-353 | a batch with nothing remaining after `n` successes is added and then ends the loop, with `n + 1` batches counted |
| LazyUsers.CeilingEndsLoop | benchmark/benchmark_lazy_users.py:328 | without an early end, exactly the first 100 batches are added and counted |
| LazyUsers.CompleteDrawRetry | benchmark/benchmark_lazy_users.py:447-460 | at most 3 attempts, stopping at the first success; failure only after 3 failed attempts |
| LazyUsers.CompareFacts | benchmark/benchmark_lazy_users.py:489-499 | the direction follows the sign of the difference; with a positive active cost, the percentage has the same sign and recovers the lazy cost; otherwise it is 0 |
| LazyUsers.Compare | benchmark/benchmark_lazy_users.py:489-499 | the difference, its percentage of the active cost and its direction; CompareFacts states them |
| PrizeSavingsTests.TxClassification | test_prize_savings.py:89-102 | a transaction fails exactly when "panic", "error" or "Error" occurs and neither "already exists" nor "skipping" does; the exit code is ignored |
| PrizeSavingsTests.RunFlowTx | test_prize_savings.py:89-102 | the transaction rule; TxClassification and TimeoutPasses state it |
| PrizeSavingsTests.RunFlowScript | test_prize_savings.py:104-115 | the script rule; ScriptStricterThanTx and StreamsCombined state it |
| PrizeSavingsTests.ScriptStricterThanTx | test_prize_savings.py:95-115 | a passing script would pass as a transaction; the two differ exactly when an error word and an override word both occur |
| PrizeSavingsTests.StreamsCombined | test_prize_savings.py:104-115 | an error word in either stream fails a script; a transaction can then pass only with an override word |
| PrizeSavingsTests.TimeoutPasses | test_prize_savings.py:84-85 | the timed-out reply (-1, "", "Command timed out") passes as a transaction and as a script |
| PrizeSavingsTests.TestTally.constructor | test_prize_savings.py:44-46 | the counters start at zero with no failed tests |
| PrizeSavingsTests.TestTally.PrintSuccess | test_prize_savings.py:60-63 | one more pass, nothing else changes |
| PrizeSavingsTests.TestTally.PrintError | test_prize_savings.py:65-69 | one more failure, recorded by name, nothing else changes |
| PrizeSavingsTests.TestTally.CheckResult | test_prize_savings.py:117-133 | returns the verdict; exactly one counter moves; a failure is recorded under the name it prints |
| PrizeSavingsTests.TestTally.ExitCode | test_prize_savings.py:2916-2938 | the exit code is 0 or 1, and 0 exactly when no test failed |
| PrizeSavingsTests.VerdictFacts | test_prize_savings.py:117-133 | a check passes exactly when the call succeeded and there is no pattern or the pattern was found; a failure is filed under the test's name |
| PrizeSavingsTests.Verdict | test_prize_savings.py:117-133 | what check_result records; VerdictFacts states it |
| PrizeSavingsTests.IdListAt | test_prize_savings.py:180 | a match is `[`, one or more digits, commas or whitespace, then `]` |
| PrizeSavingsTests.ParseItems | test_prize_savings.py:182 | items that are empty after stripping are dropped, so there are never more IDs than items |
| PrizeSavingsTests.FormatIdArray | test_prize_savings.py:953 | the argument is bracketed |
| PrizeSavingsTests.FormatParseRoundTrip | test_prize_savings.py:177-182 | the ID list parser reads back what the array builder printed (line 953), the empty list included |
| PrizeSavingsTests.NoGroupNoIds | test_prize_savings.py:177-182 | output without a bracketed group gives no IDs |
| PrizeSavingsTests.GetAllPoolIds | test_prize_savings.py:177-183 | the first bracketed list parsed, or no IDs; FormatParseRoundTrip and NoGroupNoIds state it |
| PrizeSavingsTests.NewIds | test_prize_savings.py:221 | the new IDs are exactly the listed IDs that did not exist before |
| PrizeSavingsTests.SelectPoolFacts | test_prize_savings.py:221-234 | no pool exactly when none is listed; the chosen pool is listed; it is the highest new ID when some ID is new, else the highest ID |
| PrizeSavingsTests.SelectPoolId | test_prize_savings.py:221-234 | the pool test_setup picks; SelectPoolFacts states it |
| PrizeSavingsTests.AdminAddress | test_prize_savings.py:135-142 | the address always starts with `0x` |
| PrizeSavingsTests.AdminAddressFacts | test_prize_savings.py:135-142 | prefixing is idempotent; an address that already has the prefix is kept; any other gains exactly `0x` |

## Left out

- Process, network and file I/O: `subprocess`, `curl`, `urllib`, emulator start and stop, profiler reset and download, `flow.json` reading, CSV and JSON result files. Their results are parameters.
- Sleeps, timestamps, `wait_for_draw_ready`'s polling clock, argument parsing and all printing, colours included.
- Deployment, account creation, funding, user creation (`create_users`, `create_users_and_deposit`, `setup_simulated_users`) and pool setup. These are environment plumbing; the model starts from their results.
- The quick and simple benchmarks of `benchmark_computation.py`. The receiver-creation and remaining-batch loops of `find_batch_limit` are also out: they run until the emulator says otherwise.
- The pool-count parsing in `run_multi_user_benchmark`. RunMultiUserBenchmark takes its transactions' already-classified results rather than raw CLI replies.
- The general regular-expression engine. Each pattern is modelled on its own. `lower()`, `re.IGNORECASE` and `\d` are ASCII-only here; `\s` and `strip()` use Python's full whitespace set.
- Floating point. Averages, ratios and percentages are exact `real` values; print rounding is out. `timeUntilNextDraw` is kept as its matched text rather than `float()`.
- `json.loads` of a top-level value that is not an object, which makes the drivers raise on `.get`. An id that is not a non-empty JSON string matches no report key. In the draw driver it then falls back to a one-entry report's only entry, and otherwise measures 0. The lazy-users driver measures 0 for it.
- Truncate: a JSON error value is kept whole rather than cut as `str(error)[:200]`, because `str` of a decoded JSON value is not modelled.
- CompleteDraw.RunFlowTx: a truthy JSON id that is a list or an object makes `tx_id in report['transactions']` raise `TypeError` (benchmark/benchmark_complete_draw.py:299); the model measures 0 for it instead.
- A report entry whose `computation` is JSON `null`: `Entry.computation` is either absent or an integer. In the drivers `.get('computation', 0)` then gives `None`, which raises on the next addition (benchmark/benchmark_lazy_users.py:342); the model cannot express such an entry, and it reads an absent computation as 0.
- A batch size of 0, which raises `ZeroDivisionError` in the ceiling computations. `MaxBatches` and `MultiUserMaxBatches` require a non-zero batch size.
- check_result's regular expression: the model takes the pattern text and whether it matched.
- `ParseItems` models the `ValueError` on an item with inner whitespace as `None`. In the driver that exception is not caught.
- `generate_chart.py` and the Cadence contracts themselves are not part of this model.

## Findings

| source | as written | input that shows it | evidently intended | confidence | as-written member | corrected member |
|---|---|---|---|---|---|---|
| benchmark/benchmark_complete_draw.py:678 | `print_variability_summary` takes `phases.get('completePoolDraw', 0)` from every result that has a `phases` key, and failed runs have one | a run whose user creation failed: its result has empty `phases` and an `error`, so it enters the statistics as 0 and is counted as LOW | only runs without an error enter the min/max/mean and the LOW/HIGH counts | not executed; medium | CompleteDraw.Computations with CompleteDraw.FailedRunCountsAsLow | CompleteDraw.ValidComputations with CompleteDraw.ValidComputationsFaithful and CompleteDraw.ValidComputationsSources |
