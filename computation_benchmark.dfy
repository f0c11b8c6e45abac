/**
 * benchmark_computation.py: cost accounting for a whole draw (`BenchmarkResult`),
 * transaction classification with the computation looked up in the emulator's
 * report, the text draw status, the multi-user benchmark's deposit and batch
 * loops, and the batch-limit probe with its extrapolation.
 */
module ComputationBenchmark {
  import opened Common
  import opened Text
  import opened Report

  // ================================================================ BenchmarkResult

  /** The costs one benchmark run collects; every property below is derived from them. */
  datatype BenchmarkResult = BenchmarkResult(
    userCount: int, batchSize: int,
    createPoolCu: int, setupUsersTotalCu: int, depositCus: seq<int>, fundLotteryCu: int,
    startDrawCu: int, batchCus: seq<int>, requestRandomnessCu: int, completeDrawCu: int)
  {
    function TotalDepositCu(): int {
      Sum(depositCus)
    }

    function AvgDepositCu(): real {
      if depositCus != [] then TotalDepositCu() as real / |depositCus| as real else 0.0
    }

    function TotalBatchCu(): int {
      Sum(batchCus)
    }

    function AvgBatchCu(): real {
      if batchCus != [] then TotalBatchCu() as real / |batchCus| as real else 0.0
    }

    function PerUserBatchCu(): real {
      if userCount > 0 then TotalBatchCu() as real / userCount as real else 0.0
    }

    /** The cost of the draw itself: start, every batch, randomness and completion. */
    function TotalDrawCu(): int {
      startDrawCu + TotalBatchCu() + requestRandomnessCu + completeDrawCu
    }
  }

  /** A fresh result: every cost 0, no deposits and no batches. */
  function NewResult(userCount: int, batchSize: int): (r: BenchmarkResult)
    ensures r.TotalDrawCu() == 0 && r.TotalDepositCu() == 0
    ensures r.AvgDepositCu() == 0.0 && r.AvgBatchCu() == 0.0 && r.PerUserBatchCu() == 0.0
  {
    BenchmarkResult(userCount, batchSize, 0, 0, [], 0, 0, [], 0, 0)
  }

  /** The draw total ignores pool creation, collection setup, deposits and funding. */
  lemma TotalDrawExcludesSetup(r: BenchmarkResult, pool: int, setup: int, deposits: seq<int>, fund: int)
    ensures r.(createPoolCu := pool, setupUsersTotalCu := setup, depositCus := deposits, fundLotteryCu := fund).TotalDrawCu()
            == r.TotalDrawCu()
  {
  }

  /** One more batch adds exactly its cost to the draw total. */
  lemma TotalDrawAddsBatch(r: BenchmarkResult, cu: int)
    ensures r.(batchCus := r.batchCus + [cu]).TotalDrawCu() == r.TotalDrawCu() + cu
  {
    SumAppend(r.batchCus, cu);
  }

  /** Averages are 0 with nothing to average, and otherwise lie between the smallest and largest cost. */
  lemma AveragesBetween(r: BenchmarkResult)
    ensures r.depositCus == [] ==> r.AvgDepositCu() == 0.0
    ensures r.batchCus == [] ==> r.AvgBatchCu() == 0.0
    ensures r.userCount <= 0 ==> r.PerUserBatchCu() == 0.0
    ensures r.batchCus != [] ==> MinOf(r.batchCus) as real <= r.AvgBatchCu() <= MaxOf(r.batchCus) as real
    ensures r.depositCus != [] ==> MinOf(r.depositCus) as real <= r.AvgDepositCu() <= MaxOf(r.depositCus) as real
  {
    if r.batchCus != [] {
      SumBounds(r.batchCus, MinOf(r.batchCus), MaxOf(r.batchCus));
      MeanBetween(MinOf(r.batchCus), MaxOf(r.batchCus), Sum(r.batchCus), |r.batchCus|);
    }
    if r.depositCus != [] {
      SumBounds(r.depositCus, MinOf(r.depositCus), MaxOf(r.depositCus));
      MeanBetween(MinOf(r.depositCus), MaxOf(r.depositCus), Sum(r.depositCus), |r.depositCus|);
    }
  }

  // ================================================================ get_transaction_computation

  /** Either id, lower-cased, occurs inside the other. */
  predicate PartialMatch(txId: string, key: string) {
    Contains(Lower(key), Lower(txId)) || Contains(Lower(txId), Lower(key))
  }

  /** The first entry, in the report's order, whose key partially matches. */
  function FirstPartial(t: Transactions, txId: string): (r: Option<nat>)
    ensures r.Some? ==> r.value < |t| && PartialMatch(txId, t[r.value].0)
    ensures r.Some? ==> forall j | 0 <= j < r.value :: !PartialMatch(txId, t[j].0)
    ensures r.None? <==> forall j | 0 <= j < |t| :: !PartialMatch(txId, t[j].0)
  {
    if t == [] then None
    else if PartialMatch(txId, t[0].0) then Some(0)
    else
      var rest: Transactions := t[1..];
      var r := FirstPartial(rest, txId);
      assert forall j | 1 <= j < |t| :: t[j] == rest[j - 1];
      if r.Some? then Some(r.value + 1) else None
  }

  /** No id gives nothing; an exact key wins; else the first partial match in order; else nothing. */
  function GetTransactionComputation(txId: string, t: Transactions): Option<int> {
    if txId == "" then None
    else if HasKey(t, txId) then Find(t, txId).value.computation
    else
      match FirstPartial(t, txId)
      case Some(i) => t[i].1.computation
      case None => None
  }

  /** A key equal to the id wins even when an earlier key partially matches it. */
  lemma ExactMatchWins(t: Transactions, i: nat)
    requires i < |t| && t[i].0 != ""
    ensures GetTransactionComputation(t[i].0, t) == t[i].1.computation
  {
  }

  /** Without an exact key, the first partially matching key in order answers. */
  lemma PartialMatchOrder(t: Transactions, txId: string, i: nat)
    requires txId != "" && !HasKey(t, txId)
    requires i < |t| && PartialMatch(txId, t[i].0)
    requires forall j | 0 <= j < i :: !PartialMatch(txId, t[j].0)
    ensures GetTransactionComputation(txId, t) == t[i].1.computation
  {
  }

  /** An answer comes from an entry whose key matches the id at least partially; otherwise there is none. */
  lemma {:induction false} ComputationHasSource(t: Transactions, txId: string)
    ensures GetTransactionComputation(txId, t).Some? ==>
      exists i | 0 <= i < |t| :: PartialMatch(txId, t[i].0) && t[i].1.computation == GetTransactionComputation(txId, t)
    ensures (txId == "" || forall j | 0 <= j < |t| :: !PartialMatch(txId, t[j].0)) ==> GetTransactionComputation(txId, t).None?
  {
    if txId != "" && HasKey(t, txId) {
      var i :| 0 <= i < |t| && t[i].0 == txId;
      assert At(Lower(txId), 0, Lower(txId));
      assert PartialMatch(txId, t[i].0);
    }
  }

  // ================================================================ parse_tx_id

  /** A captured id: a non-empty run of hexadecimal digits. */
  predicate HexId(s: string) {
    s != [] && forall k | 0 <= k < |s| :: IsHex(s[k])
  }

  /** `Transaction ID:\s*([a-f0-9]+)` (ignoring case) matched at `i`. */
  function LabelledIdAt(s: string, i: nat): (r: Option<string>)
    ensures r.Some? ==> HexId(r.value) && At(Lower(s), i, "transaction id:")
  {
    if !At(Lower(s), i, "transaction id:") then None
    else
      var j := RunEnd(s, i + 15, IsSpace);
      var k := RunEnd(s, j, IsHex);
      if k > j then Some(s[j..k]) else None
  }

  /** `"id":\s*"([a-f0-9]+)"` matched at `i`. */
  function JsonIdAt(s: string, i: nat): (r: Option<string>)
    ensures r.Some? ==> HexId(r.value) && At(s, i, "\"id\":")
  {
    if !At(s, i, "\"id\":") then None
    else
      var j := RunEnd(s, i + 5, IsSpace);
      if j < |s| && s[j] == '"' then
        var k := RunEnd(s, j + 1, IsLowerHex);
        if k > j + 1 && k < |s| && s[k] == '"' then Some(s[j + 1..k]) else None
      else None
  }

  /** The labelled form anywhere in the output is preferred; the JSON form is the fallback. */
  function ParseTxId(output: string): (r: Option<string>)
    ensures r.Some? ==> HexId(r.value)
  {
    SearchFacts(output, LabelledIdAt);
    SearchFacts(output, JsonIdAt);
    var labelled := Search(output, LabelledIdAt);
    if labelled.Some? then labelled else Search(output, JsonIdAt)
  }

  /** With neither marker in the output there is no id. */
  lemma NoMarkerNoId(output: string)
    requires !Contains(Lower(output), "transaction id:") && !Contains(output, "\"id\":")
    ensures ParseTxId(output).None?
  {
    forall j | 0 <= j <= |output| ensures LabelledIdAt(output, j).None? && JsonIdAt(output, j).None? {
      assert !At(Lower(output), j, "transaction id:");
      assert !At(output, j, "\"id\":");
    }
    SearchFacts(output, LabelledIdAt);
    SearchFacts(output, JsonIdAt);
  }

  /** `Transaction ID: <hex>` at the start of a line of output parses back to the hex id. */
  lemma {:induction false} ParseLabelled(h: string, rest: string)
    requires HexId(h)
    requires rest == [] || !IsHex(rest[0])
    ensures ParseTxId("Transaction ID: " + h + rest) == Some(h)
  {
    var s := "Transaction ID: " + h + rest;
    LabelledAtStart(h, rest);
    SearchFirst(s, LabelledIdAt);
  }

  /** Text that starts `Transaction ID: ` carries the marker, in any casing, then a space. */
  lemma LabelMarker(s: string)
    requires |s| >= 16 && s[..16] == "Transaction ID: "
    ensures At(Lower(s), 0, "transaction id:") && s[15] == ' '
  {
    LowerSlice(s, 0, 15);
    assert s[0..15] == "Transaction ID:";
    LowerLabel();
  }

  lemma LowerLabel()
    ensures Lower("Transaction ID:") == "transaction id:"
  {
    var l := Lower("Transaction ID:");
    assert forall k | 0 <= k < 15 :: l[k] == "transaction id:"[k];
  }

  lemma LabelledAtStart(h: string, rest: string)
    requires HexId(h)
    requires rest == [] || !IsHex(rest[0])
    ensures LabelledIdAt("Transaction ID: " + h + rest, 0) == Some(h)
  {
    var s := "Transaction ID: " + h + rest;
    assert s[..16] == "Transaction ID: ";
    LabelMarker(s);
    RunEndOf(s, 15, 16, IsSpace);
    assert forall k | 16 <= k < 16 + |h| :: s[k] == h[k - 16];
    if rest != [] {
      assert s[16 + |h|] == rest[0];
    }
    RunEndOf(s, 16, 16 + |h|, IsHex);
    assert s[16..16 + |h|] == h;
  }

  // ================================================================ run_transaction

  /** What `run_transaction` returns. */
  datatype TransactionResult = TransactionResult(
    success: bool, computation: Option<int>, txId: Option<string>, output: string, error: string)

  /**
   * Classifies one `flow transactions send` call from its exit code and both
   * streams, looking the computation up in `report` only for a successful call
   * whose id was parsed.
   */
  function RunTransaction(code: int, stdout: string, stderr: string, report: Transactions): TransactionResult {
    var combined := stdout + stderr;
    var low := Lower(combined);
    var txId := ParseTxId(combined);
    var success := code == 0
      && !(Contains(low, "error") && Contains(low, "error:"))
      && !(Contains(low, "panic") || Contains(low, "revert"));
    TransactionResult(success,
                      if txId.Some? && success then GetTransactionComputation(txId.value, report) else None,
                      txId, stdout, stderr)
  }

  lemma ColonedErrorIsError(s: string)
    requires Contains(s, "error:")
    ensures Contains(s, "error")
  {
    var i :| 0 <= i <= |s| && At(s, i, "error:");
    assert s[i..i + 5] == s[i..i + 6][..5];
    assert At(s, i, "error");
  }

  /** Success is exit code 0 with none of "error:", "panic" and "revert" in the lower-cased output. */
  lemma {:induction false} TransactionSuccess(code: int, stdout: string, stderr: string, report: Transactions)
    ensures var low := Lower(stdout + stderr);
      RunTransaction(code, stdout, stderr, report).success
      <==> code == 0 && !Contains(low, "error:") && !Contains(low, "panic") && !Contains(low, "revert")
  {
    var low := Lower(stdout + stderr);
    assert RunTransaction(code, stdout, stderr, report).success ==
      (code == 0 && !(Contains(low, "error") && Contains(low, "error:")) && !(Contains(low, "panic") || Contains(low, "revert")));
    if Contains(low, "error:") {
      ColonedErrorIsError(low);
    }
  }

  /** A computation is reported only for a successful call with a parsed id. */
  lemma ComputationNeedsIdAndSuccess(code: int, stdout: string, stderr: string, report: Transactions)
    ensures var r := RunTransaction(code, stdout, stderr, report);
      r.computation.Some? ==> r.success && r.txId.Some? && HexId(r.txId.value)
  {
  }

  // ================================================================ get_draw_status

  /** The draw status: the script's stderr when it failed, else the flags found in its output. */
  datatype DrawStatus =
    | StatusError(error: string)
    | Status(canDrawNow: Option<bool>, isBatchComplete: Option<bool>, timeUntilNextDraw: Option<string>)

  /** A flag is set only by an explicit literal, the `true` one taking precedence. */
  function Flag(output: string, whenTrue: string, whenFalse: string): (r: Option<bool>)
    ensures r == Some(true) <==> Contains(output, whenTrue)
    ensures r == Some(false) <==> !Contains(output, whenTrue) && Contains(output, whenFalse)
    ensures r.None? <==> !Contains(output, whenTrue) && !Contains(output, whenFalse)
  {
    if Contains(output, whenTrue) then Some(true)
    else if Contains(output, whenFalse) then Some(false)
    else None
  }

  /** `"timeUntilNextDraw":\s*([\d.]+)` matched at `i`. */
  function TimeUntilAt(s: string, i: nat): (r: Option<string>)
    ensures r.Some? ==> r.value != [] && forall k | 0 <= k < |r.value| :: IsDigitOrDot(r.value[k])
  {
    if !At(s, i, "\"timeUntilNextDraw\":") then None
    else
      var j := RunEnd(s, i + 20, IsSpace);
      var k := RunEnd(s, j, IsDigitOrDot);
      if k > j then Some(s[j..k]) else None
  }

  /** `get_draw_status` on the script's exit code and streams. */
  function GetDrawStatus(code: int, stdout: string, stderr: string): (r: DrawStatus)
    ensures code != 0 <==> r == StatusError(stderr)
  {
    if code != 0 then StatusError(stderr)
    else Status(Flag(stdout, "\"canDrawNow\": true", "\"canDrawNow\": false"),
                Flag(stdout, "\"isBatchComplete\": true", "\"isBatchComplete\": false"),
                Search(stdout, TimeUntilAt))
  }

  /** `status.get("isBatchComplete", False)`. */
  predicate IsBatchComplete(s: DrawStatus) {
    s.Status? && s.isBatchComplete == Some(true)
  }

  /** Batch processing reads as complete exactly when the script succeeded and printed the `true` literal. */
  lemma BatchCompleteFromOutput(code: int, stdout: string, stderr: string)
    ensures IsBatchComplete(GetDrawStatus(code, stdout, stderr)) <==> code == 0 && Contains(stdout, "\"isBatchComplete\": true")
    ensures code == 0 && Contains(stdout, "\"isBatchComplete\": true") && Contains(stdout, "\"isBatchComplete\": false") ==>
      GetDrawStatus(code, stdout, stderr).isBatchComplete == Some(true)
  {
  }

  // ================================================================ run_multi_user_benchmark

  /** The deposit chunks for `remaining` positions: 50 at a time, the last one taking the rest. */
  function DepositChunks(remaining: int): seq<int>
    decreases remaining
  {
    if remaining <= 0 then []
    else
      var chunk := if remaining < 50 then remaining else 50;
      [chunk] + DepositChunks(remaining - chunk)
  }

  /** Every chunk holds 1 to 50 positions, all but the last exactly 50, and together they hold them all. */
  lemma {:induction false} DepositChunksFacts(n: int)
    ensures forall i | 0 <= i < |DepositChunks(n)| :: 1 <= DepositChunks(n)[i] <= 50
    ensures forall i | 0 <= i < |DepositChunks(n)| - 1 :: DepositChunks(n)[i] == 50
    ensures Sum(DepositChunks(n)) == if n <= 0 then 0 else n
    ensures |DepositChunks(n)| == if n <= 0 then 0 else (n + 49) / 50
  {
    DepositChunksBounds(n);
    DepositChunksSum(n);
    DepositChunksCount(n);
  }

  lemma {:induction false} DepositChunksBounds(n: int)
    ensures forall i | 0 <= i < |DepositChunks(n)| :: 1 <= DepositChunks(n)[i] <= 50
    ensures forall i | 0 <= i < |DepositChunks(n)| - 1 :: DepositChunks(n)[i] == 50
    decreases n
  {
    if n > 0 {
      DepositChunksBounds(n - if n < 50 then n else 50);
    }
  }

  lemma {:induction false} DepositChunksSum(n: int)
    ensures Sum(DepositChunks(n)) == if n <= 0 then 0 else n
    decreases n
  {
    if n > 0 {
      var chunk := if n < 50 then n else 50;
      DepositChunksSum(n - chunk);
      SumPrepend(chunk, DepositChunks(n - chunk));
    }
  }

  lemma {:induction false} DepositChunksCount(n: int)
    ensures |DepositChunks(n)| == if n <= 0 then 0 else (n + 49) / 50
    decreases n
  {
    if n > 0 {
      DepositChunksCount(n - if n < 50 then n else 50);
    }
  }

  /** The non-zero computations among `rs`, in order (`if result.computation:` then append). */
  function MeasuredCus(rs: seq<TransactionResult>): (cs: seq<int>)
    ensures |cs| <= |rs|
    ensures forall i | 0 <= i < |cs| :: cs[i] != 0
  {
    if rs == [] then []
    else
      var c := rs[|rs| - 1].computation;
      MeasuredCus(rs[..|rs| - 1]) + (if c.Some? && c.value != 0 then [c.value] else [])
  }

  lemma MeasuredCusAppend(rs: seq<TransactionResult>, r: TransactionResult)
    ensures MeasuredCus(rs + [r]) ==
      MeasuredCus(rs) + (if r.computation.Some? && r.computation.value != 0 then [r.computation.value] else [])
  {
    assert (rs + [r])[..|rs|] == rs;
  }

  /** The `while remaining > 0` deposit loop, one batch deposit per chunk. */
  method Deposits(userCount: int, results: seq<TransactionResult>) returns (chunks: seq<int>, depositCus: seq<int>, total: int)
    requires |results| >= |DepositChunks(userCount)|
    ensures chunks == DepositChunks(userCount)
    ensures depositCus == MeasuredCus(results[..|chunks|])
    ensures total == Sum(depositCus)
  {
    chunks, depositCus, total := [], [], 0;
    ghost var all := DepositChunks(userCount);
    var remaining := userCount;
    while remaining > 0
      invariant chunks + DepositChunks(remaining) == all
      invariant depositCus == MeasuredCus(results[..|chunks|])
      invariant total == Sum(depositCus)
      decreases remaining
    {
      var chunk := if remaining < 50 then remaining else 50;
      ChunkStep(chunks, remaining, all);
      depositCus, total := MeasureDeposit(results, |chunks|, depositCus, total);
      chunks := chunks + [chunk];
      remaining := remaining - chunk;
    }
  }

  /** Records the `k`-th deposit's computation when it is non-zero. */
  method MeasureDeposit(rs: seq<TransactionResult>, k: nat, cus: seq<int>, total: int) returns (cus': seq<int>, total': int)
    requires k < |rs| && cus == MeasuredCus(rs[..k]) && total == Sum(cus)
    ensures cus' == MeasuredCus(rs[..k + 1]) && total' == Sum(cus')
  {
    MeasuredStep(rs, k, cus, total);
    var r := rs[k];
    cus', total' := cus, total;
    if r.computation.Some? && r.computation.value != 0 {
      cus' := cus + [r.computation.value];
      total' := total + r.computation.value;
    }
  }

  /** One more deposit result extends the measured costs, and their sum, by its computation when that is non-zero. */
  lemma MeasuredStep(rs: seq<TransactionResult>, k: nat, cus: seq<int>, total: int)
    requires k < |rs| && cus == MeasuredCus(rs[..k]) && total == Sum(cus)
    ensures var c := rs[k].computation;
      if c.Some? && c.value != 0
      then cus + [c.value] == MeasuredCus(rs[..k + 1]) && total + c.value == Sum(cus + [c.value])
      else cus == MeasuredCus(rs[..k + 1])
  {
    assert rs[..k + 1] == rs[..k] + [rs[k]];
    MeasuredCusAppend(rs[..k], rs[k]);
    if rs[k].computation.Some? {
      SumAppend(cus, rs[k].computation.value);
    }
  }

  /** Issuing the next chunk moves it from the chunks still due to the chunks issued. */
  lemma ChunkStep(done: seq<int>, remaining: int, all: seq<int>)
    requires remaining > 0 && done + DepositChunks(remaining) == all
    ensures var chunk := if remaining < 50 then remaining else 50;
      |done| < |all| && (done + [chunk]) + DepositChunks(remaining - chunk) == all
  {
    var chunk := if remaining < 50 then remaining else 50;
    assert DepositChunks(remaining) == [chunk] + DepositChunks(remaining - chunk);
    assert done + ([chunk] + DepositChunks(remaining - chunk)) == (done + [chunk]) + DepositChunks(remaining - chunk);
  }

  /** The batch ceiling of the multi-user benchmark: `user_count // batch_size + 10`. */
  function MultiUserMaxBatches(userCount: int, batchSize: int): int
    requires batchSize != 0
  {
    FloorDiv(userCount, batchSize) + 10
  }

  /**
   * The multi-user batch loop: a failed batch does not stop it; after every batch
   * the status is read, and it stops once processing is complete or at the ceiling.
   */
  method MultiUserBatches(maxBatches: int, batches: seq<TransactionResult>, statuses: seq<DrawStatus>)
    returns (batchNum: nat, batchCus: seq<int>)
    requires |batches| >= maxBatches && |statuses| >= maxBatches
    ensures MultiUserStops(maxBatches, statuses, batchNum)
    ensures batchNum <= |batches| && batchCus == MeasuredCus(batches[..batchNum])
  {
    batchNum, batchCus := 0, [];
    while batchNum < maxBatches
      invariant batchNum <= maxBatches || batchNum == 0
      invariant forall i | 0 <= i < batchNum :: !IsBatchComplete(statuses[i])
      invariant batchCus == MeasuredCus(batches[..batchNum])
    {
      var r := batches[batchNum];
      assert batches[..batchNum + 1] == batches[..batchNum] + [r];
      MeasuredCusAppend(batches[..batchNum], r);
      if r.computation.Some? && r.computation.value != 0 {
        batchCus := batchCus + [r.computation.value];
      }
      batchNum := batchNum + 1;
      if IsBatchComplete(statuses[batchNum - 1]) {
        break;
      }
    }
  }

  /**
   * How the multi-user batch loop may stop after `n` batches: within the ceiling,
   * at least one batch when the ceiling is positive, no earlier status read as
   * complete, and a stop before the ceiling happens only on a complete status.
   */
  predicate MultiUserStops(maxBatches: int, statuses: seq<DrawStatus>, n: int) {
    && 0 <= n <= |statuses|
    && (if maxBatches > 0 then 0 < n <= maxBatches else n == 0)
    && (forall i | 0 <= i < n - 1 :: !IsBatchComplete(statuses[i]))
    && (0 < n < maxBatches ==> IsBatchComplete(statuses[n - 1]))
  }

  /**
   * `run_multi_user_benchmark` on the classified results of its transactions.
   * Setup costs are recorded first; without a ready draw, or after a failed
   * start, the draw costs after that point stay 0.
   */
  method RunMultiUserBenchmark(
    userCount: int, batchSize: int,
    createPool: TransactionResult, setup: TransactionResult, deposits: seq<TransactionResult>,
    fund: TransactionResult, drawReady: bool, start: TransactionResult,
    batches: seq<TransactionResult>, statuses: seq<DrawStatus>,
    request: TransactionResult, complete: TransactionResult)
    returns (r: BenchmarkResult)
    requires batchSize != 0
    requires |deposits| >= |DepositChunks(userCount)|
    requires |batches| >= MultiUserMaxBatches(userCount, batchSize)
    requires |statuses| >= MultiUserMaxBatches(userCount, batchSize)
    ensures r.userCount == userCount && r.batchSize == batchSize
    ensures r.createPoolCu == createPool.computation.GetOr(0)
    ensures r.setupUsersTotalCu == setup.computation.GetOr(0)
    ensures r.depositCus == MeasuredCus(deposits[..|DepositChunks(userCount)|])
    ensures r.fundLotteryCu == fund.computation.GetOr(0)
    ensures r.startDrawCu == if drawReady then start.computation.GetOr(0) else 0
    ensures !(drawReady && start.success) ==>
      r.batchCus == [] && r.requestRandomnessCu == 0 && r.completeDrawCu == 0 && r.TotalDrawCu() == r.startDrawCu
    ensures drawReady && start.success ==>
      && r.requestRandomnessCu == request.computation.GetOr(0)
      && r.completeDrawCu == complete.computation.GetOr(0)
      && exists n | 0 <= n <= |batches| ::
           MultiUserStops(MultiUserMaxBatches(userCount, batchSize), statuses, n)
           && r.batchCus == MeasuredCus(batches[..n])
  {
    r := NewResult(userCount, batchSize);
    r := r.(createPoolCu := createPool.computation.GetOr(0));
    r := r.(setupUsersTotalCu := setup.computation.GetOr(0));
    var chunks, depositCus, total := Deposits(userCount, deposits);
    r := r.(depositCus := depositCus);
    r := r.(fundLotteryCu := fund.computation.GetOr(0));
    if !drawReady {
      return;
    }
    r := r.(startDrawCu := start.computation.GetOr(0));
    if !start.success {
      return;
    }
    var n, batchCus := MultiUserBatches(MultiUserMaxBatches(userCount, batchSize), batches, statuses);
    r := r.(batchCus := batchCus);
    r := r.(requestRandomnessCu := request.computation.GetOr(0));
    r := r.(completeDrawCu := complete.computation.GetOr(0));
  }

  // ================================================================ find_batch_limit

  /** One measured probe: its batch size, its computation and the cost per user. */
  datatype Probe = Probe(batchSize: int, computation: int, perUser: real)

  /** A probe the loop keeps: a success with a positive computation, whose cost per user is then computed. */
  predicate Kept(o: TransactionResult) {
    o.computation.Some? && o.computation.value > 0 && o.success
  }

  /**
   * The probes the loop keeps: a success with a positive computation is kept,
   * a success without one is skipped, and the first failure ends probing.
   */
  function Probes(sizes: seq<int>, outcomes: seq<TransactionResult>): (ps: seq<Probe>)
    requires |outcomes| >= |sizes|
    requires forall i | 0 <= i < |sizes| :: Kept(outcomes[i]) ==> sizes[i] != 0
    ensures forall i | 0 <= i < |ps| :: ps[i].computation > 0
    decreases |sizes|
  {
    if sizes == [] then []
    else
      var o := outcomes[0];
      if Kept(o) then
        [Probe(sizes[0], o.computation.value, o.computation.value as real / sizes[0] as real)]
        + Probes(sizes[1..], outcomes[1..])
      else if !o.success then []
      else Probes(sizes[1..], outcomes[1..])
  }

  /** Nothing after the first failed probe is kept. */
  lemma {:induction false} FailureEndsProbing(sizes: seq<int>, outcomes: seq<TransactionResult>, i: nat)
    requires |outcomes| >= |sizes| && i < |sizes|
    requires forall k | 0 <= k < |sizes| :: Kept(outcomes[k]) ==> sizes[k] != 0
    requires !outcomes[i].success
    ensures Probes(sizes, outcomes) == Probes(sizes[..i + 1], outcomes[..i + 1])
  {
    if i > 0 {
      FailureEndsProbing(sizes[1..], outcomes[1..], i - 1);
      assert sizes[1..][..i] == sizes[..i + 1][1..];
      assert outcomes[1..][..i] == outcomes[..i + 1][1..];
    }
  }

  /** The probe `for` loop over the batch sizes to test. */
  method ProbeBatchSizes(sizes: seq<int>, outcomes: seq<TransactionResult>) returns (results: seq<Probe>)
    requires |outcomes| >= |sizes|
    requires forall i | 0 <= i < |sizes| :: Kept(outcomes[i]) ==> sizes[i] != 0
    ensures results == Probes(sizes, outcomes)
  {
    results := [];
    var i := 0;
    while i < |sizes|
      invariant 0 <= i <= |sizes|
      invariant results + Probes(sizes[i..], outcomes[i..]) == Probes(sizes, outcomes)
    {
      var o := outcomes[i];
      assert sizes[i..][1..] == sizes[i + 1..] && outcomes[i..][1..] == outcomes[i + 1..];
      if Kept(o) {
        results := results + [Probe(sizes[i], o.computation.value, o.computation.value as real / sizes[i] as real)];
      } else if !o.success {
        return;
      }
      i := i + 1;
    }
  }

  function SumPerUser(ps: seq<Probe>): real {
    if ps == [] then 0.0 else SumPerUser(ps[..|ps| - 1]) + ps[|ps| - 1].perUser
  }

  /** The extrapolated limit: the average cost per user and the user counts it allows. */
  datatype LimitEstimate = LimitEstimate(avgPerUser: real, theoreticalMax: int, recommendedMax: int)

  /** The compute limit of one transaction. */
  const ComputeLimit := 9999

  /** No estimate without a kept probe; otherwise `int(9999 / avg)` (0 for avg <= 0) and `int(0.9 * theoretical)`. */
  function EstimateLimit(results: seq<Probe>): (e: Option<LimitEstimate>)
    ensures e.Some? <==> results != []
  {
    if results == [] then None
    else
      var avg := SumPerUser(results) / |results| as real;
      var theoretical := if avg > 0.0 then (ComputeLimit as real / avg).Floor else 0;
      Some(LimitEstimate(avg, theoretical, (theoretical as real * 0.9).Floor))
  }

  /**
   * The theoretical maximum is the largest user count whose extrapolated cost stays
   * within the limit, and the recommendation is 90% of it rounded down.
   */
  lemma EstimateBounds(results: seq<Probe>)
    requires results != []
    ensures var e := EstimateLimit(results).value;
      && 0 <= e.recommendedMax <= e.theoreticalMax
      && e.recommendedMax as real <= 0.9 * e.theoreticalMax as real < e.recommendedMax as real + 1.0
      && (e.avgPerUser > 0.0 ==>
            e.theoreticalMax as real * e.avgPerUser <= ComputeLimit as real
            < (e.theoreticalMax + 1) as real * e.avgPerUser)
      && (e.avgPerUser <= 0.0 ==> e.theoreticalMax == 0)
  {
    var e := EstimateLimit(results).value;
    if e.avgPerUser > 0.0 {
      var q := ComputeLimit as real / e.avgPerUser;
      assert q * e.avgPerUser == ComputeLimit as real;
      assert q > 0.0;
      assert e.theoreticalMax as real <= q < e.theoreticalMax as real + 1.0;
      assert (q - e.theoreticalMax as real) * e.avgPerUser >= 0.0;
      assert (e.theoreticalMax as real + 1.0 - q) * e.avgPerUser > 0.0;
    }
  }

  /** 3075 users costing 9948 extrapolate to 3090 users, 2781 with the 10% margin. */
  lemma EstimateExample()
    ensures EstimateLimit([Probe(3075, 9948, 9948.0 / 3075.0)]) == Some(LimitEstimate(9948.0 / 3075.0, 3090, 2781))
  {
    var ps := [Probe(3075, 9948, 9948.0 / 3075.0)];
    assert ps[..0] == [];
    assert SumPerUser(ps) == 9948.0 / 3075.0;
    var avg := 9948.0 / 3075.0;
    assert 9999.0 / avg == 30746925.0 / 9948.0;
    assert (30746925.0 / 9948.0).Floor == 3090;
    assert (3090.0 * 0.9).Floor == 2781;
  }
}
