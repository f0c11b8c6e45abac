/**
 * benchmark/benchmark_complete_draw.py: phases 1 to 3 of a draw as setup, the
 * measured completeDraw with its per-winner cost and level, the variability
 * summary over repeated runs, and the users/winners adjustment.
 */
module CompleteDraw {
  import opened Common
  import opened Text
  import opened Json
  import opened Report
  import DrawComputation

  // ================================================================ run_flow_tx / run_flow_script

  /** `(success, output, tx_id, computation)`; `JNull` stands for `None`. */
  datatype TxOutcome = TxOutcome(success: bool, output: Message, txId: JsonValue, computation: int)

  /** The report's computation for exactly this id, 0 when the id is not a key or the entry has none. */
  function ExactComputation(report: Transactions, txId: JsonValue): int {
    var id := AsId(txId);
    if id.Some? && HasKey(report, id.value) then Find(report, id.value).value.computation.GetOr(0) else 0
  }

  /**
   * Classifies one call. The JSON rule is the one of the draw benchmark; the text
   * fallback gives no id and computation 0, and the report is read only when
   * measuring a successful call that has an id.
   */
  function RunFlowTx(r: CliOutput, measure: bool, report: Transactions): TxOutcome {
    match r.json
    case Some(o) =>
      var txId := Get(o, "id", Get(o, "transactionId", JNull));
      var sealed := Get(o, "status", JNull) == JStr("SEALED") || Get(o, "statusString", JNull) == JStr("SEALED");
      var error := Get(o, "error", Get(o, "errorMessage", JStr("")));
      if !sealed && Truthy(error) then TxOutcome(false, ErrorValue(error), txId, 0)
      else TxOutcome(true, Raw(r.stdout), txId, if measure && Truthy(txId) then ExactComputation(report, txId) else 0)
    case None =>
      var output := r.stdout + r.stderr;
      var low := Lower(output);
      TxOutcome(r.code == 0 && !Contains(low, "error") && !Contains(low, "panic"), Raw(output), JNull, 0)
  }

  /** Success and failure are decided exactly as in the draw benchmark's `run_flow_tx`. */
  lemma SameClassificationAsDrawBenchmark(r: CliOutput, measure: bool, report: Transactions)
    ensures RunFlowTx(r, measure, report).success == DrawComputation.RunFlowTx(r).success
  {
  }

  /**
   * A non-zero computation is measured, from the report entry keyed by exactly the
   * returned id, on the JSON path; the text path and failures always give 0.
   */
  lemma MeasuredOnlyByExactId(r: CliOutput, measure: bool, report: Transactions)
    ensures var x := RunFlowTx(r, measure, report);
      && (x.computation != 0 ==>
            && measure && x.success && r.json.Some?
            && exists i | 0 <= i < |report| :: JStr(report[i].0) == x.txId && report[i].1.computation == Some(x.computation))
      && (!x.success ==> x.computation == 0)
      && (r.json.None? ==> x.computation == 0 && x.txId == JNull)
  {
    var x := RunFlowTx(r, measure, report);
    if x.computation != 0 {
      var id := AsId(x.txId);
      var i :| 0 <= i < |report| && report[i].0 == id.value;
      assert Find(report, id.value) == Some(report[i].1);
    }
  }

  /** `run_flow_script`: the text rule, whatever the script printed. */
  function RunFlowScript(code: int, stdout: string, stderr: string): (bool, string) {
    var output := stdout + stderr;
    (code == 0 && !Contains(Lower(output), "error") && !Contains(Lower(output), "panic"), output)
  }

  /** The two flags `get_draw_status` reads from the script's combined output. */
  datatype DrawStatus = DrawStatus(isBatchComplete: bool, isReadyForCompletion: bool)

  function GetDrawStatus(output: string): DrawStatus {
    DrawStatus(Contains(output, "isBatchComplete: true"), Contains(output, "isReadyForCompletion: true"))
  }

  /** The flag is read from the output text alone: a failing script that prints it still reports completion. */
  lemma StatusIgnoresScriptFailure(code: int, stdout: string, stderr: string)
    requires Contains(stdout, "isBatchComplete: true")
    ensures GetDrawStatus(RunFlowScript(code, stdout, stderr).1).isBatchComplete
  {
    ContainsConcat(stdout, stderr, "isBatchComplete: true");
  }

  // ================================================================ run_draw_phases_1_to_3

  /** One measured phase call: the CLI response and the report fetched after it. */
  datatype PhaseCall = PhaseCall(cli: CliOutput, report: Transactions)

  predicate Ok(c: PhaseCall) {
    RunFlowTx(c.cli, true, c.report).success
  }

  function Comp(c: PhaseCall): int {
    RunFlowTx(c.cli, true, c.report).computation
  }

  /** The phase names, in the order the phases run. */
  const PhaseNames: seq<string> := ["startPoolDraw", "processDrawBatch", "requestDrawRandomness"]

  /** The batch ceiling. */
  const MaxBatches := 100

  function Keys(results: seq<(string, int)>): seq<string> {
    seq(|results|, i requires 0 <= i < |results| => results[i].0)
  }

  /** The computations of the successful calls among the first `n` of `bs`, summed. */
  function OkTotal(bs: seq<PhaseCall>, n: nat): int
    requires n <= |bs|
  {
    if n == 0 then 0 else OkTotal(bs, n - 1) + (if Ok(bs[n - 1]) then Comp(bs[n - 1]) else 0)
  }

  /**
   * How the batch loop may stop after `n` batches: at least one and at most
   * 100, all but the last succeeded without the status reading complete, and a stop
   * before 100 is due to the last batch failing or completing.
   */
  predicate BatchesStop(batches: seq<PhaseCall>, statuses: seq<string>, n: int) {
    && 0 < n <= MaxBatches && n <= |batches| && n <= |statuses|
    && (forall i | 0 <= i < n - 1 :: Ok(batches[i]) && !GetDrawStatus(statuses[i]).isBatchComplete)
    && (n < MaxBatches ==> !Ok(batches[n - 1]) || GetDrawStatus(statuses[n - 1]).isBatchComplete)
  }

  /** Runs one measured batch. */
  method RunBatch(c: PhaseCall) returns (ok: bool, comp: int)
    ensures ok == Ok(c) && comp == Comp(c)
  {
    var x := RunFlowTx(c.cli, true, c.report);
    ok, comp := x.success, x.computation;
  }

  /** The phase-2 loop: batches of `user_count`, at most 100, stopping on failure or completion. */
  method ProcessBatches(batches: seq<PhaseCall>, statuses: seq<string>) returns (count: nat, total: int)
    requires |batches| >= MaxBatches && |statuses| >= MaxBatches
    ensures BatchesStop(batches, statuses, count)
    ensures total == OkTotal(batches, count)
  {
    count, total := 0, 0;
    while count < MaxBatches
      invariant count <= MaxBatches
      invariant forall i | 0 <= i < count :: Ok(batches[i]) && !GetDrawStatus(statuses[i]).isBatchComplete
      invariant total == OkTotal(batches, count)
    {
      count := count + 1;
      var ok, comp := RunBatch(batches[count - 1]);
      if !ok {
        break;
      }
      total := total + comp;
      var status := GetDrawStatus(statuses[count - 1]);
      if status.isBatchComplete {
        break;
      }
    }
  }

  /**
   * Phases 1 to 3. A failed funding or start gives no results; otherwise the start
   * and the batch total are recorded, and the randomness request only when it succeeds,
   * so the keys are always a prefix of the phase names.
   */
  method RunDrawPhases1To3(fund: CliOutput, start: PhaseCall, batches: seq<PhaseCall>, statuses: seq<string>, request: PhaseCall)
    returns (results: seq<(string, int)>)
    requires |batches| >= MaxBatches && |statuses| >= MaxBatches
    ensures |results| <= 3 && Keys(results) == PhaseNames[..|results|]
    ensures results == [] <==> !RunFlowTx(fund, false, []).success || !Ok(start)
    ensures results != [] ==> results[0].1 == Comp(start)
    ensures results != [] ==> |results| >= 2 && exists n :: BatchesStop(batches, statuses, n) && results[1].1 == OkTotal(batches, n)
    ensures results != [] ==> (|results| == 3 <==> Ok(request))
    ensures |results| == 3 ==> results[2].1 == Comp(request)
  {
    results := [];
    var funded := RunFlowTx(fund, false, []);
    if !funded.success {
      return;
    }
    var s := RunFlowTx(start.cli, true, start.report);
    if !s.success {
      return;
    }
    results := results + [("startPoolDraw", s.computation)];
    var count, total := ProcessBatches(batches, statuses);
    results := results + [("processDrawBatch", total)];
    var q := RunFlowTx(request.cli, true, request.report);
    if !q.success {
      return;
    }
    results := results + [("requestDrawRandomness", q.computation)];
  }

  // ================================================================ run_single_benchmark

  datatype Level = Low | Medium | High

  /** HIGH above 5000, MEDIUM above 1000, LOW otherwise. */
  function LevelOf(comp: int): Level {
    if comp > 5000 then High else if comp > 1000 then Medium else Low
  }

  function Rank(l: Level): nat {
    match l
    case Low => 0
    case Medium => 1
    case High => 2
  }

  /** Each level is one band of computation, and a larger computation never gets a lower level. */
  lemma LevelBands(comp: int, other: int)
    ensures LevelOf(comp) == High <==> comp > 5000
    ensures LevelOf(comp) == Medium <==> 1000 < comp <= 5000
    ensures LevelOf(comp) == Low <==> comp <= 1000
    ensures comp <= other ==> Rank(LevelOf(comp)) <= Rank(LevelOf(other))
  {
  }

  /** A phase's computation in a result, `phases.get(name, default)`. */
  function PhaseGet(phases: seq<(string, int)>, name: string, default: int): int {
    if phases == [] then default
    else if phases[|phases| - 1].0 == name then phases[|phases| - 1].1
    else PhaseGet(phases[..|phases| - 1], name, default)
  }

  /** One run's record. A run that failed has an error and no phases, and nothing after it is set. */
  datatype SingleBenchmark = SingleBenchmark(
    winnerCount: int, userCount: int, phases: seq<(string, int)>, error: Option<string>,
    computationPerWinner: real, txId: JsonValue, exceededLimit: bool, level: Option<Level>)

  /** `run_single_benchmark` given whether user creation succeeded, the phase 1-3 results and the completeDraw call. */
  function RunSingleBenchmark(winnerCount: int, userCount: int, usersCreated: bool,
                              phases: seq<(string, int)>, complete: TxOutcome): (r: SingleBenchmark)
    ensures r.error.None? <==> usersCreated && phases != []
    ensures r.error.Some? ==> r.phases == [] && r.level.None? && !r.exceededLimit
    ensures r.error.None? ==> PhaseGet(r.phases, "completePoolDraw", 0) == (if complete.success then complete.computation else 0)
  {
    var empty := SingleBenchmark(winnerCount, userCount, [], None, 0.0, JNull, false, None);
    if !usersCreated then empty.(error := Some("Failed to create users"))
    else if phases == [] then empty.(error := Some("Failed in phases 1-3"))
    else
      var comp := if complete.success then complete.computation else 0;
      SingleBenchmark(winnerCount, userCount, phases + [("completePoolDraw", comp)], None,
                      if winnerCount > 0 then comp as real / winnerCount as real else 0.0,
                      complete.txId, comp > 9999, Some(LevelOf(comp)))
  }

  /** Exceeding the limit means more than 9999 and is always HIGH; the per-winner cost times the winners is the cost. */
  lemma SingleBenchmarkFacts(winnerCount: int, userCount: int, usersCreated: bool, phases: seq<(string, int)>, complete: TxOutcome)
    requires usersCreated && phases != []
    ensures var r := RunSingleBenchmark(winnerCount, userCount, usersCreated, phases, complete);
      var comp := PhaseGet(r.phases, "completePoolDraw", 0);
      && (r.exceededLimit <==> comp > 9999)
      && (r.exceededLimit ==> r.level == Some(High))
      && (winnerCount > 0 ==> r.computationPerWinner * winnerCount as real == comp as real)
      && (winnerCount <= 0 ==> r.computationPerWinner == 0.0)
  {
  }

  // ================================================================ print_variability_summary

  /** The number of elements of `cs` satisfying `p`. */
  function Count(cs: seq<int>, p: int -> bool): (n: nat)
    ensures n <= |cs|
  {
    if cs == [] then 0 else Count(cs[..|cs| - 1], p) + (if p(cs[|cs| - 1]) then 1 else 0)
  }

  /** Elements counted by two predicates that never hold together add up to at most the total. */
  lemma {:induction false} CountDisjoint(cs: seq<int>, p: int -> bool, q: int -> bool)
    requires forall c :: !(p(c) && q(c))
    ensures Count(cs, p) + Count(cs, q) <= |cs|
  {
    if cs != [] {
      CountDisjoint(cs[..|cs| - 1], p, q);
    }
  }

  datatype Summary =
    | NoResults
    | Summary(runs: nat, minComp: int, maxComp: int, mean: real, range: int, ratio: real, lowCount: nat, highCount: nat)

  /** The statistics printed for a list of completeDraw computations; an empty list reports an error. */
  function Summarize(cs: seq<int>): (s: Summary)
    ensures s.NoResults? <==> cs == []
  {
    if cs == [] then NoResults
    else
      var lo := MinOf(cs);
      var hi := MaxOf(cs);
      Summary(|cs|, lo, hi, Sum(cs) as real / |cs| as real, hi - lo,
              hi as real / (if lo > 1 then lo else 1) as real,
              Count(cs, c => c < 1000), Count(cs, c => c > 5000))
  }

  /** The range is never negative, the mean lies between the extremes, and LOW and HIGH runs never overlap. */
  lemma SummaryBounds(cs: seq<int>)
    requires cs != []
    ensures var s := Summarize(cs);
      && s.range >= 0
      && s.lowCount + s.highCount <= s.runs
      && s.minComp as real <= s.mean <= s.maxComp as real
  {
    var lo, hi := MinOf(cs), MaxOf(cs);
    CountDisjoint(cs, c => c < 1000, c => c > 5000);
    SumBounds(cs, lo, hi);
    MeanBetween(lo, hi, Sum(cs), |cs|);
  }

  /** The ratio divides by the minimum, or by 1 when the minimum is below 1, so it is defined for a zero minimum. */
  lemma SummaryRatio(cs: seq<int>)
    requires cs != []
    ensures var s := Summarize(cs);
      && (s.minComp >= 1 ==> s.ratio * s.minComp as real == s.maxComp as real)
      && (s.minComp < 1 ==> s.ratio == s.maxComp as real)
  {
    var lo, hi := MinOf(cs), MaxOf(cs);
    var d := if lo > 1 then lo else 1;
    assert Summarize(cs).ratio == hi as real / d as real;
  }

  /** The computations as written: every run's completePoolDraw, 0 for a run without one, failed runs included. */
  function Computations(results: seq<SingleBenchmark>): (cs: seq<int>)
    ensures |cs| == |results|
  {
    seq(|results|, i requires 0 <= i < |results| => PhaseGet(results[i].phases, "completePoolDraw", 0))
  }

  /** A run that failed before completeDraw enters the statistics as a LOW run costing 0. */
  lemma FailedRunCountsAsLow(winnerCount: int, userCount: int, complete: TxOutcome)
    ensures var failed := RunSingleBenchmark(winnerCount, userCount, false, [], complete);
      Computations([failed]) == [0] && Summarize(Computations([failed])).lowCount == 1
  {
    var failed := RunSingleBenchmark(winnerCount, userCount, false, [], complete);
    assert Computations([failed]) == [0];
    assert [0][..0] == [];
  }

  /** The computations of the runs that reached completeDraw, in order. */
  function ValidComputations(results: seq<SingleBenchmark>): (cs: seq<int>)
    ensures |cs| <= |results|
  {
    if results == [] then []
    else
      var r := results[|results| - 1];
      ValidComputations(results[..|results| - 1])
      + (if r.error.None? then [PhaseGet(r.phases, "completePoolDraw", 0)] else [])
  }

  /** Only runs without an error contribute, and they contribute all their computations. */
  lemma {:induction false} ValidComputationsFaithful(results: seq<SingleBenchmark>)
    ensures (forall i | 0 <= i < |results| :: results[i].error.Some?) ==> ValidComputations(results) == []
    ensures (forall i | 0 <= i < |results| :: results[i].error.None?) ==> ValidComputations(results) == Computations(results)
  {
    if results != [] {
      var init := results[..|results| - 1];
      ValidComputationsFaithful(init);
      assert forall i | 0 <= i < |init| :: init[i] == results[i];
      if forall i | 0 <= i < |results| :: results[i].error.None? {
        assert Computations(results) == Computations(init) + [PhaseGet(results[|results| - 1].phases, "completePoolDraw", 0)];
      }
    }
  }

  /** One more run appends its completion cost when it has no error, and nothing when it failed. */
  lemma ValidComputationsAppend(results: seq<SingleBenchmark>, r: SingleBenchmark)
    ensures r.error.Some? ==> ValidComputations(results + [r]) == ValidComputations(results)
    ensures r.error.None? ==>
      ValidComputations(results + [r]) == ValidComputations(results) + [PhaseGet(r.phases, "completePoolDraw", 0)]
  {
    assert (results + [r])[..|results|] == results;
  }

  /**
   * In any mix of runs, the corrected list is the completion costs of exactly the
   * error-free runs, in run order: `idx` picks them in increasing order.
   */
  lemma {:induction false} ValidComputationsSources(results: seq<SingleBenchmark>) returns (idx: seq<nat>)
    ensures |idx| == |ValidComputations(results)|
    ensures forall k | 0 <= k < |idx| :: idx[k] < |results| && results[idx[k]].error.None?
    ensures forall k | 0 <= k < |idx| :: ValidComputations(results)[k] == PhaseGet(results[idx[k]].phases, "completePoolDraw", 0)
    ensures forall k, l | 0 <= k < l < |idx| :: idx[k] < idx[l]
    ensures forall i | 0 <= i < |results| && results[i].error.None? :: i in idx
  {
    if results == [] {
      idx := [];
    } else {
      var n := |results| - 1;
      var front := results[..n];
      var prev := ValidComputationsSources(front);
      assert results == front + [results[n]];
      ValidComputationsAppend(front, results[n]);
      assert forall i | 0 <= i < n :: front[i] == results[i];
      if results[n].error.None? {
        idx := prev + [n];
      } else {
        idx := prev;
      }
    }
  }

  // ================================================================ main

  /** Fewer users than winners are raised to winners + 50. */
  function AdjustUsers(users: int, winners: int): int {
    if users < winners then winners + 50 else users
  }

  /** After adjustment there are at least as many users as winners; valid counts are kept, and adjusting twice changes nothing. */
  lemma AdjustUsersFacts(users: int, winners: int)
    ensures AdjustUsers(users, winners) >= winners
    ensures users >= winners ==> AdjustUsers(users, winners) == users
    ensures AdjustUsers(AdjustUsers(users, winners), winners) == AdjustUsers(users, winners)
  {
  }
}
