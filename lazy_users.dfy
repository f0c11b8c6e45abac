/**
 * benchmark/benchmark_lazy_users.py: the batch cost of a draw over users that
 * deposited in an earlier round against users that are active, with its own
 * transaction classification, receiver count, draw loops, completeDraw retry
 * and the percentage difference of the two costs.
 */
module LazyUsers {
  import opened Common
  import opened Text
  import opened Json
  import opened Report

  // ================================================================ run_flow_script / get_receiver_count

  /** `run_flow_script`: success is the exit code alone, and the output is both streams. */
  function RunFlowScript(code: int, stdout: string, stderr: string): (bool, string) {
    (code == 0, stdout + stderr)
  }

  /** `Result:\s*(\d+)` matched at `i`, with the number it captures. */
  function ResultAt(s: string, i: nat): (r: Option<nat>) {
    if !At(s, i, "Result:") then None
    else
      var j := RunEnd(s, i + 7, IsSpace);
      var k := RunEnd(s, j, IsDigit);
      if k > j then Some(DigitsValue(s[j..k])) else None
  }

  /** The last line of the stripped output. */
  function LastLine(output: string): string {
    var lines := Split(Strip(output), '\n');
    lines[|lines| - 1]
  }

  /** The first `Result: N`, else the last line read as an integer, else -1; a failed script gives -1. */
  function GetReceiverCount(code: int, stdout: string, stderr: string): int {
    var (success, output) := RunFlowScript(code, stdout, stderr);
    if !success then -1
    else
      match Search<nat>(output, ResultAt)
      case Some(n) => n
      case None => PyInt(LastLine(output)).GetOr(-1)
  }

  /** `Result:\s*(\d+)` matches at the start of `Result: N`. */
  lemma ResultAtStart(n: nat, rest: string)
    ensures ResultAt("Result: " + NatToString(n) + "\n" + rest, 0) == Some(n)
  {
    var digits := NatToString(n);
    var s := "Result: " + digits + "\n" + rest;
    assert s[..7] == "Result:";
    assert s[7] == ' ';
    RunEndOf(s, 7, 8, IsSpace);
    assert forall k | 8 <= k < 8 + |digits| :: s[k] == digits[k - 8];
    assert s[8 + |digits|] == '\n';
    RunEndOf(s, 8, 8 + |digits|, IsDigit);
    assert s[8..8 + |digits|] == digits;
    NatToStringValue(n);
  }

  /** `Result: N` printed first in the output is the count. */
  lemma ReceiverCountResult(n: nat, rest: string)
    ensures GetReceiverCount(0, "Result: " + NatToString(n) + "\n" + rest, "") == n
  {
    var s := "Result: " + NatToString(n) + "\n" + rest;
    assert s + "" == s;
    ResultAtStart(n, rest);
    SearchFirst<nat>(s, ResultAt);
  }

  /** Output without the `Result:` marker never gives a count from the pattern. */
  lemma NoResultMarker(s: string)
    requires !Contains(s, "Result:")
    ensures Search<nat>(s, ResultAt) == None
  {
    forall j | 0 <= j <= |s| ensures ResultAt(s, j).None? {
      assert !At(s, j, "Result:");
    }
    SearchFacts<nat>(s, ResultAt);
  }

  /** A padded number on one line is its own last line. */
  lemma LastLineOfNumber(n: nat, pad: string)
    requires forall k | 0 <= k < |pad| :: IsSpace(pad[k])
    ensures LastLine(pad + NatToString(n) + pad) == NatToString(n)
  {
    var body := NatToString(n);
    StripPadded(body, pad);
    assert '\n' !in body by {
      forall k | 0 <= k < |body| ensures body[k] != '\n' {
        assert IsDigit(body[k]);
      }
    }
  }

  /** A bare number, however padded, is the count. */
  lemma ReceiverCountBare(n: nat, pad: string)
    requires forall k | 0 <= k < |pad| :: IsSpace(pad[k])
    requires !Contains(pad + NatToString(n) + pad, "Result:")
    ensures GetReceiverCount(0, pad + NatToString(n) + pad, "") == n
  {
    var s := pad + NatToString(n) + pad;
    assert s + "" == s;
    NoResultMarker(s);
    LastLineOfNumber(n, pad);
    PyIntOfDigits(NatToString(n));
    NatToStringValue(n);
  }

  /** A failed script is always -1, whatever it printed. */
  lemma ReceiverCountFailure(code: int, stdout: string, stderr: string)
    requires code != 0
    ensures GetReceiverCount(code, stdout, stderr) == -1
  {
  }

  // ================================================================ run_flow_tx

  /** `(success, output, tx_id, computation)`; `JNull` stands for `None`. */
  datatype TxOutcome = TxOutcome(success: bool, output: string, txId: JsonValue, computation: int)

  /** `get_computation_for_tx`: the entry's computation, 0 when the id is not a key or the entry has none. */
  function ComputationForTx(report: Transactions, txId: string): int {
    match Find(report, txId)
    case Some(e) => e.computation.GetOr(0)
    case None => 0
  }

  /** 64 lower-case hex digits starting at `j`. */
  predicate HexRun64(s: string, j: nat) {
    j + 64 <= |s| && forall k | j <= k < j + 64 :: IsLowerHex(s[k])
  }

  /** `ID\s+([a-f0-9]{64})` matched at `i`. */
  function TextIdAt(s: string, i: nat): (r: Option<string>)
    ensures r.Some? ==> |r.value| == 64 && forall k | 0 <= k < 64 :: IsLowerHex(r.value[k])
  {
    if !At(s, i, "ID") then None
    else
      var j := RunEnd(s, i + 2, IsSpace);
      if j > i + 2 && HexRun64(s, j) then Some(s[j..j + 64]) else None
  }

  /** The JSON path's id: `data.get('id') or data.get('transactionId')`. */
  function JsonTxId(o: Obj): JsonValue {
    var id := Get(o, "id", JNull);
    if Truthy(id) then id else Get(o, "transactionId", JNull)
  }

  /**
   * Classifies one call. A JSON error or a FAILED status fails at once with
   * computation 0; otherwise the computation is looked up for any id found, and
   * success is exit code 0 without `"error"` in the lower-cased output.
   */
  function RunFlowTx(r: CliOutput, report: Transactions): TxOutcome {
    var output := r.stdout + r.stderr;
    var txId := match r.json
      case Some(o) => JsonTxId(o)
      case None => match Search(output, TextIdAt) case Some(h) => JStr(h) case None => JNull;
    if r.json.Some? && (Truthy(Get(r.json.value, "error", JNull)) || Get(r.json.value, "status", JNull) == JStr("FAILED")) then
      TxOutcome(false, output, txId, 0)
    else
      var computation := match AsId(txId) case Some(id) => ComputationForTx(report, id) case None => 0;
      TxOutcome(r.code == 0 && !Contains(Lower(output), "\"error\""), output, txId, computation)
  }

  /** A JSON error or FAILED status is a failure; otherwise success is exit code 0 without `"error"`. */
  lemma Classification(r: CliOutput, report: Transactions)
    ensures var x := RunFlowTx(r, report);
      && (r.json.Some? && (Truthy(Get(r.json.value, "error", JNull)) || Get(r.json.value, "status", JNull) == JStr("FAILED")) ==>
            !x.success && x.computation == 0)
      && (!(r.json.Some? && (Truthy(Get(r.json.value, "error", JNull)) || Get(r.json.value, "status", JNull) == JStr("FAILED"))) ==>
            (x.success <==> r.code == 0 && !Contains(Lower(r.stdout + r.stderr), "\"error\"")))
  {
  }

  /** The computation is 0 without an id or when the report has no entry for it, and otherwise that entry's. */
  lemma ComputationLookup(r: CliOutput, report: Transactions)
    ensures var x := RunFlowTx(r, report);
      && (AsId(x.txId).None? ==> x.computation == 0)
      && (AsId(x.txId).Some? && !HasKey(report, AsId(x.txId).value) ==> x.computation == 0)
      && (x.computation != 0 ==> exists i | 0 <= i < |report| :: JStr(report[i].0) == x.txId && report[i].1.computation == Some(x.computation))
  {
    var x := RunFlowTx(r, report);
    if x.computation != 0 {
      var id := AsId(x.txId).value;
      var i :| 0 <= i < |report| && report[i].0 == id;
      assert Find(report, id) == Some(report[i].1);
    }
  }

  /** Text output: the id is the 64 hex digits after the first `ID` followed by whitespace. */
  lemma {:induction false} TextIdFirst(h: string, rest: string)
    requires |h| == 64 && forall k | 0 <= k < 64 :: IsLowerHex(h[k])
    ensures Search("ID " + h + rest, TextIdAt) == Some(h)
  {
    var s := "ID " + h + rest;
    assert s[..2] == "ID";
    assert s[2] == ' ';
    assert s[3] == h[0];
    RunEndOf(s, 2, 3, IsSpace);
    assert forall k | 3 <= k < 67 :: s[k] == h[k - 3];
    assert s[3..67] == h;
    SearchFirst(s, TextIdAt);
  }

  // ================================================================ run_complete_draw

  /** One call and the report the computation is read from. */
  datatype Call = Call(cli: CliOutput, report: Transactions)

  function Run(c: Call): TxOutcome {
    RunFlowTx(c.cli, c.report)
  }

  /** The classified outcome of each call, in order. */
  function Outcomes(cs: seq<Call>): (r: seq<TxOutcome>)
    ensures |r| == |cs| && forall i | 0 <= i < |cs| :: r[i] == Run(cs[i])
  {
    seq(|cs|, i requires 0 <= i < |cs| => Run(cs[i]))
  }

  /** The batch ceiling of both loops. */
  const MaxBatches := 100

  /** `run_complete_draw`'s completion test on a batch's output. */
  predicate DrawLoopDone(output: string) {
    Contains(Lower(output), "remaining: 0") || Contains(Lower(output), "batch complete")
  }

  /** Every batch issued from `i` on succeeds: the loop issues up to the first done batch or the ceiling. */
  predicate BatchesSucceed(xs: seq<TxOutcome>, i: nat)
    decreases MaxBatches - i
  {
    i >= MaxBatches || i >= |xs| ||
    (xs[i].success && (DrawLoopDone(xs[i].output) || BatchesSucceed(xs, i + 1)))
  }

  /** A failed batch before any done batch fails the draw. */
  lemma {:induction false} FailedBatchFailsDraw(xs: seq<TxOutcome>, i: nat, n: nat)
    requires i <= n < MaxBatches && n < |xs|
    requires forall k | i <= k < n :: xs[k].success && !DrawLoopDone(xs[k].output)
    requires !xs[n].success
    ensures !BatchesSucceed(xs, i)
    decreases n - i
  {
    if i < n {
      FailedBatchFailsDraw(xs, i + 1, n);
    }
  }

  /** A failure after a done batch is never issued. */
  lemma DoneBatchEndsDraw(xs: seq<TxOutcome>, n: nat)
    requires n < MaxBatches && n < |xs|
    requires forall k | 0 <= k < n :: xs[k].success && !DrawLoopDone(xs[k].output)
    requires xs[n].success && DrawLoopDone(xs[n].output)
    ensures BatchesSucceed(xs, 0)
  {
    DoneBatchFrom(xs, 0, n);
  }

  lemma {:induction false} DoneBatchFrom(xs: seq<TxOutcome>, i: nat, n: nat)
    requires i <= n < MaxBatches && n < |xs|
    requires forall k | i <= k < n :: xs[k].success && !DrawLoopDone(xs[k].output)
    requires xs[n].success && DrawLoopDone(xs[n].output)
    ensures BatchesSucceed(xs, i)
    decreases n - i
  {
    if i < n {
      DoneBatchFrom(xs, i + 1, n);
    }
  }

  /** A full draw: false at the first failing phase, the batch loop bounded by 100 and ended early by a done batch. */
  method RunCompleteDraw(start: Call, batches: seq<Call>, request: Call, complete: Call) returns (ok: bool)
    requires |batches| >= MaxBatches
    ensures ok <==> Run(start).success && BatchesSucceed(Outcomes(batches), 0) && Run(request).success && Run(complete).success
  {
    ghost var xs := Outcomes(batches);
    var started := RunCall(start);
    if !started.success {
      return false;
    }
    for i := 0 to MaxBatches
      invariant BatchesSucceed(xs, 0) == BatchesSucceed(xs, i)
    {
      var x := RunCall(batches[i]);
      assert x == xs[i];
      if !x.success {
        return false;
      }
      if DrawLoopDone(x.output) {
        break;
      }
    }
    var requested := RunCall(request);
    if !requested.success {
      return false;
    }
    var completed := RunCall(complete);
    ok := completed.success;
  }

  // ================================================================ benchmark_process_draw_batch

  /** `output.replace(' ', '')`. */
  function RemoveSpaces(s: string): (r: string)
    ensures ' ' !in r && |r| <= |s|
  {
    if s == [] then [] else (if s[0] == ' ' then [] else [s[0]]) + RemoveSpaces(s[1..])
  }

  /** A failed batch that reports the batch as already complete ends the loop as a success. */
  predicate AlreadyComplete(output: string) {
    Contains(Lower(output), "batch processing already complete") || Contains(Lower(output), "already complete")
  }

  /** After a successful batch: no receivers remain. */
  predicate NothingRemaining(output: string) {
    Contains(RemoveSpaces(output), "\"remaining\":0") || Contains(Lower(output), "remaining: 0")
  }

  /** The longer message is only a special case of the shorter one. */
  lemma AlreadyCompleteShorter(output: string)
    ensures AlreadyComplete(output) <==> Contains(Lower(output), "already complete")
  {
    var low := Lower(output);
    if Contains(low, "batch processing already complete") {
      ContainsPiece(low, "batch processing already complete", 17, 33);
      CompletePiece();
    }
  }

  lemma CompletePiece()
    ensures "batch processing already complete"[17..33] == "already complete"
  {
    var p := "batch processing already complete"[17..33];
    assert forall k | 0 <= k < 16 :: p[k] == "already complete"[k];
  }

  /** What one batch's response does to `benchmark_process_draw_batch`'s loop. */
  datatype Step =
    | Abort              // a failure: the measurement is lost
    | AlreadyDone        // a failure saying the batch is already complete: stop, keep the total
    | Last(comp: int)    // a success with nothing remaining: add and stop
    | Next(comp: int)    // a success: add and go on

  function StepOf(x: TxOutcome): Step {
    if !x.success then (if AlreadyComplete(x.output) then AlreadyDone else Abort)
    else if NothingRemaining(x.output) then Last(x.computation)
    else Next(x.computation)
  }

  /** Each kind of step is exactly one kind of response, and a success carries its computation. */
  lemma StepMeaning(x: TxOutcome)
    ensures StepOf(x) == Abort <==> !x.success && !AlreadyComplete(x.output)
    ensures StepOf(x) == AlreadyDone <==> !x.success && AlreadyComplete(x.output)
    ensures StepOf(x).Last? <==> x.success && NothingRemaining(x.output)
    ensures StepOf(x).Next? <==> x.success && !NothingRemaining(x.output)
    ensures StepOf(x).Last? || StepOf(x).Next? ==> StepOf(x).comp == x.computation
  {
  }

  /**
   * The outcome of the batch loop from batch `i` on with `total` so far: `None`
   * for a real failure, else the total of the successful batches, an "already
   * complete" failure or a batch with nothing remaining ending it early.
   */
  function BatchLoop(steps: seq<Step>, i: nat, total: int): Option<int>
    decreases MaxBatches - i
  {
    if i >= MaxBatches || i >= |steps| then Some(total)
    else
      match steps[i]
      case Abort => None
      case AlreadyDone => Some(total)
      case Last(c) => Some(total + c)
      case Next(c) => BatchLoop(steps, i + 1, total + c)
  }

  /**
   * The `batch_count` the loop ends with from batch `i` on: one per successful
   * batch, the one with nothing remaining included; a failure adds none.
   */
  function BatchCount(steps: seq<Step>, i: nat): nat
    decreases MaxBatches - i
  {
    if i >= MaxBatches || i >= |steps| then 0
    else
      match steps[i]
      case Abort => 0
      case AlreadyDone => 0
      case Last(_) => 1
      case Next(_) => 1 + BatchCount(steps, i + 1)
  }

  /** The step of each batch call, in order. */
  function BatchSteps(cs: seq<Call>): (r: seq<Step>)
    ensures |r| == |cs|
  {
    if cs == [] then [] else BatchSteps(cs[..|cs| - 1]) + [StepOf(Run(cs[|cs| - 1]))]
  }

  lemma {:induction false} BatchStepsAt(cs: seq<Call>, i: nat)
    requires i < |cs|
    ensures BatchSteps(cs)[i] == StepOf(Run(cs[i]))
    decreases |cs|
  {
    if i < |cs| - 1 {
      assert cs[..|cs| - 1][i] == cs[i];
      BatchStepsAt(cs[..|cs| - 1], i);
    }
  }

  /** The loop body's reading of batch reply `i`: `run_flow_tx`, then which of the four branches applies. */
  method ClassifyBatch(cs: seq<Call>, i: nat) returns (s: Step)
    requires i < |cs|
    ensures s == BatchSteps(cs)[i]
  {
    var x := Run(cs[i]);
    s := StepOf(x);
    BatchStepsAt(cs, i);
  }

  /** One `run_flow_tx` call, as the drivers' loops issue it. */
  method RunCall(c: Call) returns (x: TxOutcome)
    ensures x == Run(c)
  {
    x := Run(c);
  }

  /**
   * The `for _ in range(100)` loop of `benchmark_process_draw_batch`: `None` when a
   * batch really fails, else the batch total, with the number of successful batches.
   */
  method ProcessBatchLoop(batches: seq<Call>) returns (total: Option<int>, batchCount: nat)
    requires |batches| >= MaxBatches
    ensures total == BatchLoop(BatchSteps(batches), 0, 0)
    ensures batchCount == BatchCount(BatchSteps(batches), 0)
    ensures batchCount <= MaxBatches
  {
    ghost var steps := BatchSteps(batches);
    batchCount := 0;
    var sum := 0;
    for i := 0 to MaxBatches
      invariant BatchLoop(steps, 0, 0) == BatchLoop(steps, i, sum)
      invariant batchCount <= i
      invariant BatchCount(steps, 0) == batchCount + BatchCount(steps, i)
    {
      var step := ClassifyBatch(batches, i);
      match step
      case Abort =>
        return None, batchCount;
      case AlreadyDone =>
        return Some(sum), batchCount;
      case Last(c) =>
        return Some(sum + c), batchCount + 1;
      case Next(c) =>
        sum := sum + c;
        batchCount := batchCount + 1;
    }
    total := Some(sum);
  }

  /** `benchmark_process_draw_batch`: `None` when the start or a batch fails, else the batch total, with the `batch_count` it prints. */
  method BenchmarkProcessDrawBatch(start: Call, batches: seq<Call>) returns (total: Option<int>, batchCount: nat)
    requires |batches| >= MaxBatches
    ensures !Run(start).success ==> total == None && batchCount == 0
    ensures Run(start).success ==> total == BatchLoop(BatchSteps(batches), 0, 0)
    ensures Run(start).success ==> batchCount == BatchCount(BatchSteps(batches), 0)
    ensures batchCount <= MaxBatches
  {
    var started := RunCall(start);
    if !started.success {
      return None, 0;
    }
    total, batchCount := ProcessBatchLoop(batches);
  }

  /** What a step adds to the total. */
  function Gain(s: Step): int {
    match s
    case Last(c) => c
    case Next(c) => c
    case _ => 0
  }

  /** The gains of the first `n` steps added up, in order. */
  function Total(steps: seq<Step>, n: nat): int
    requires n <= |steps|
  {
    if n == 0 then 0 else Total(steps, n - 1) + Gain(steps[n - 1])
  }

  /** Running on through successful batches adds their computations to the total. */
  lemma {:induction false} BatchLoopSkips(steps: seq<Step>, i: nat, n: nat)
    requires i <= n <= MaxBatches && n <= |steps|
    requires forall k | i <= k < n :: steps[k].Next?
    ensures BatchLoop(steps, i, Total(steps, i)) == BatchLoop(steps, n, Total(steps, n))
    decreases n - i
  {
    if i < n {
      BatchLoopSkips(steps, i + 1, n);
    }
  }

  /** Running on through successful batches counts each of them once. */
  lemma {:induction false} BatchCountSkips(steps: seq<Step>, i: nat, n: nat)
    requires i <= n <= MaxBatches && n <= |steps|
    requires forall k | i <= k < n :: steps[k].Next?
    ensures BatchCount(steps, i) == (n - i) + BatchCount(steps, n)
    decreases n - i
  {
    if i < n {
      BatchCountSkips(steps, i + 1, n);
    }
  }

  /** A failure that is not "already complete" after `n` successes loses the whole measurement; `n` batches were counted. */
  lemma RealFailureLosesAll(steps: seq<Step>, n: nat)
    requires n < MaxBatches && n < |steps|
    requires forall k | 0 <= k < n :: steps[k].Next?
    requires steps[n] == Abort
    ensures BatchLoop(steps, 0, 0) == None
    ensures BatchCount(steps, 0) == n
  {
    BatchLoopSkips(steps, 0, n);
    BatchCountSkips(steps, 0, n);
  }

  /** An "already complete" failure after `n` successes yields the total of those `n` batches, and counts `n`. */
  lemma AlreadyCompleteKeepsTotal(steps: seq<Step>, n: nat)
    requires n < MaxBatches && n < |steps|
    requires forall k | 0 <= k < n :: steps[k].Next?
    requires steps[n] == AlreadyDone
    ensures BatchLoop(steps, 0, 0) == Some(Total(steps, n))
    ensures BatchCount(steps, 0) == n
  {
    BatchLoopSkips(steps, 0, n);
    BatchCountSkips(steps, 0, n);
  }

  /** A batch with nothing remaining after `n` successes yields the total of all `n + 1` batches, and counts `n + 1`. */
  lemma NothingRemainingEndsLoop(steps: seq<Step>, n: nat)
    requires n < MaxBatches && n < |steps|
    requires forall k | 0 <= k < n :: steps[k].Next?
    requires steps[n].Last?
    ensures BatchLoop(steps, 0, 0) == Some(Total(steps, n + 1))
    ensures BatchCount(steps, 0) == n + 1
  {
    BatchLoopSkips(steps, 0, n);
    BatchCountSkips(steps, 0, n);
  }

  /** With no early end, exactly the first 100 batches are added and counted. */
  lemma CeilingEndsLoop(steps: seq<Step>)
    requires |steps| >= MaxBatches
    requires forall k | 0 <= k < MaxBatches :: steps[k].Next?
    ensures BatchLoop(steps, 0, 0) == Some(Total(steps, MaxBatches))
    ensures BatchCount(steps, 0) == MaxBatches
  {
    BatchLoopSkips(steps, 0, MaxBatches);
    BatchCountSkips(steps, 0, MaxBatches);
  }

  // ================================================================ main

  /** The completeDraw retry: at most 3 attempts, stopping at the first success. */
  method CompleteDrawRetry(attempts: seq<Call>) returns (ok: bool, used: nat)
    requires |attempts| >= 3
    ensures 1 <= used <= 3
    ensures ok <==> exists i | 0 <= i < 3 :: Run(attempts[i]).success
    ensures forall i | 0 <= i < used - 1 :: !Run(attempts[i]).success
    ensures ok ==> Run(attempts[used - 1]).success
    ensures !ok ==> used == 3
  {
    used := 0;
    while used < 3
      invariant used <= 3
      invariant forall i | 0 <= i < used :: !Run(attempts[i]).success
    {
      used := used + 1;
      if Run(attempts[used - 1]).success {
        return true, used;
      }
    }
    ok := false;
  }

  datatype Direction = MoreExpensive | LessExpensive | NoDifference

  /** The lazy cost against the active one: the difference, its percentage of the active cost, and its direction. */
  datatype Comparison = Comparison(diff: int, diffPct: real, direction: Direction)

  function Compare(active: int, lazy: int): Comparison {
    var diff := lazy - active;
    Comparison(diff,
               if active > 0 then diff as real / active as real * 100.0 else 0.0,
               if diff > 0 then MoreExpensive else if diff < 0 then LessExpensive else NoDifference)
  }

  /** The direction follows the sign of the difference, and the percentage recovers the lazy cost from the active one. */
  lemma CompareFacts(active: int, lazy: int)
    ensures var c := Compare(active, lazy);
      && (c.direction == MoreExpensive <==> lazy > active)
      && (c.direction == LessExpensive <==> lazy < active)
      && (c.direction == NoDifference <==> lazy == active)
      && (active > 0 ==> lazy as real == active as real * (1.0 + c.diffPct / 100.0))
      && (active > 0 ==> (c.diffPct > 0.0 <==> c.direction == MoreExpensive) && (c.diffPct < 0.0 <==> c.direction == LessExpensive))
      && (active <= 0 ==> c.diffPct == 0.0)
  {
    var c := Compare(active, lazy);
    if active > 0 {
      var q := (lazy - active) as real / active as real;
      assert q * active as real == (lazy - active) as real;
      assert c.diffPct / 100.0 == q;
      if lazy > active {
        assert q > 0.0;
      }
      if lazy < active {
        assert q < 0.0;
      }
    }
  }
}
