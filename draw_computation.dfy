/**
 * benchmark/benchmark_draw_computation.py: one four-phase draw
 * (startPoolDraw, processDrawBatch until complete, requestDrawRandomness,
 * completePoolDraw) with the cost of each phase looked up in the emulator's
 * computation report, and the variability summary over repeated runs.
 */
module DrawComputation {
  import opened Common
  import opened Text
  import opened Json
  import opened Report

  // ================================================================ run_flow_tx

  /** `(success, output, tx_id, computation)` of `run_flow_tx`; `JNull` stands for `None`. */
  datatype TxOutcome = TxOutcome(success: bool, output: Message, txId: JsonValue, computation: JsonValue)

  predicate IdWord(w: string) {
    StartsWith(w, "0x") || |w| == 64
  }

  /** The first word that looks like an id. */
  function FirstIdWord(ws: seq<string>): (r: Option<string>)
    ensures r.Some? ==> r.value in ws && IdWord(r.value)
    ensures r.None? <==> forall k | 0 <= k < |ws| :: !IdWord(ws[k])
  {
    if ws == [] then None
    else if IdWord(ws[0]) then Some(ws[0])
    else FirstIdWord(ws[1..])
  }

  /** The id a text line offers: on a line mentioning both "ID" and "0x", its first id-like word. */
  function LineTxId(line: string): Option<string> {
    if Contains(line, "ID") && Contains(line, "0x") then FirstIdWord(Words(line)) else None
  }

  /** A match of `computation[:\s]+(\d+)` (ignoring case) at index `i`, with the captured number. */
  function ComputationAt(line: string, i: nat): Option<nat> {
    if !At(Lower(line), i, "computation") then None
    else
      var j := RunEnd(line, i + 11, IsColonOrSpace);
      var k := RunEnd(line, j, IsDigit);
      if j > i + 11 && k > j then Some(DigitsValue(line[j..k])) else None
  }

  /** The computation a text line reports, looked for only on lines mentioning "computation". */
  function LineComputation(line: string): Option<nat> {
    if Contains(Lower(line), "computation") then Search(line, ComputationAt) else None
  }

  /** The text fallback: the last line offering an id wins, as does the last computation. */
  function TextTxId(output: string): Option<string> {
    LastSome(Split(output, '\n'), LineTxId)
  }

  function TextComputation(output: string): Option<nat> {
    LastSome(Split(output, '\n'), LineComputation)
  }

  /** `status` or `statusString` is "SEALED". */
  predicate Sealed(o: Obj) {
    Get(o, "status", JNull) == JStr("SEALED") || Get(o, "statusString", JNull) == JStr("SEALED")
  }

  /** `error`, or when that key is missing `errorMessage`, defaulting to "". */
  function JsonError(o: Obj): JsonValue {
    Get(o, "error", Get(o, "errorMessage", JStr("")))
  }

  /** `computationUsed`, falling back to `gasUsed` when it is missing or 0. */
  function JsonComputation(o: Obj): JsonValue {
    var used := Get(o, "computationUsed", JNum(0));
    if Truthy(used) then used else Get(o, "gasUsed", JNum(0))
  }

  /** Classifies one `flow transactions send --output json` call. */
  function RunFlowTx(r: CliOutput): TxOutcome {
    match r.json
    case Some(o) =>
      var txId := Get(o, "id", Get(o, "transactionId", JNull));
      if !Sealed(o) && Truthy(JsonError(o)) then TxOutcome(false, ErrorValue(JsonError(o)), txId, JsonComputation(o))
      else TxOutcome(true, Raw(r.stdout), txId, JsonComputation(o))
    case None =>
      var output := r.stdout + r.stderr;
      var low := Lower(output);
      var txId := match TextTxId(output) case Some(p) => JStr(p) case None => JNull;
      TxOutcome(r.code == 0 && !Contains(low, "error") && !Contains(low, "panic"),
                Raw(output), txId, JNum(TextComputation(output).GetOr(0)))
  }

  /** Structured output: the call fails exactly when it is not sealed and carries a non-empty error. */
  lemma JsonClassification(r: CliOutput)
    requires r.json.Some?
    ensures !RunFlowTx(r).success <==> !Sealed(r.json.value) && Truthy(JsonError(r.json.value))
    ensures !Sealed(r.json.value) && !Truthy(JsonError(r.json.value)) ==> RunFlowTx(r).success
    ensures RunFlowTx(r).computation == JsonComputation(r.json.value)
  {
  }

  /** Structured output: neither the exit code nor stderr has any say. */
  lemma JsonIgnoresExitCode(r: CliOutput, code: int, stderr: string)
    requires r.json.Some?
    ensures RunFlowTx(r.(code := code, stderr := stderr)) == RunFlowTx(r)
  {
  }

  /** Text output: success needs exit code 0, and any casing of "error" or "panic" in either stream is a failure. */
  lemma {:induction false} TextClassification(r: CliOutput, marker: string)
    requires r.json.None?
    requires Lower(marker) == "error" || Lower(marker) == "panic"
    requires Contains(r.stdout, marker) || Contains(r.stderr, marker)
    ensures !RunFlowTx(r).success
  {
    ContainsConcat(r.stdout, r.stderr, marker);
    ContainsLower(r.stdout + r.stderr, marker);
  }

  /** Text output: a success had exit code 0. */
  lemma TextSuccessNeedsExitZero(r: CliOutput)
    requires r.json.None? && RunFlowTx(r).success
    ensures r.code == 0
  {
  }

  /** Text output: a success is exactly exit code 0 with neither "error" nor "panic", in any casing, in the two streams together. */
  lemma TextSuccessExactly(r: CliOutput)
    requires r.json.None?
    ensures RunFlowTx(r).success <==>
      r.code == 0 && !Contains(Lower(r.stdout + r.stderr), "error") && !Contains(Lower(r.stdout + r.stderr), "panic")
  {
  }

  /** `computationUsed` is reported when non-zero; otherwise `gasUsed`, and 0 when both are missing. */
  lemma ComputationFallback(o: Obj)
    ensures "computationUsed" in o && Truthy(o["computationUsed"]) ==> JsonComputation(o) == o["computationUsed"]
    ensures ("computationUsed" !in o || o["computationUsed"] == JNum(0)) && "gasUsed" in o ==> JsonComputation(o) == o["gasUsed"]
    ensures "computationUsed" !in o && "gasUsed" !in o ==> JsonComputation(o) == JNum(0)
  {
  }

  // ================================================================ execute_draw_phase

  /** The cost the report attributes to an entry, missing fields counting 0. */
  function EntryCost(e: Entry): (int, int) {
    (e.computation.GetOr(0), e.memory.GetOr(0))
  }

  /**
   * The correlation rule: the entry whose key is the transaction id, else the
   * report's only entry, else nothing (0, 0).
   */
  function Correlate(t: Transactions, txId: JsonValue): (int, int) {
    var id := AsId(txId);
    if id.Some? && HasKey(t, id.value) then EntryCost(Find(t, id.value).value)
    else if |t| == 1 then EntryCost(t[0].1)
    else (0, 0)
  }

  /** The `for tid, data in report['transactions'].items()` loop, in the dictionary's order. */
  method CorrelateLoop(t: Transactions, txId: JsonValue) returns (computation: int, memory: int)
    ensures (computation, memory) == Correlate(t, txId)
  {
    computation, memory := 0, 0;
    var id := AsId(txId);
    var i := 0;
    while i < |t|
      invariant 0 <= i <= |t|
      invariant forall j | 0 <= j < i :: !(id.Some? && t[j].0 == id.value) && |t| != 1
    {
      var (tid, data) := t[i];
      if id.Some? && tid == id.value {
        computation, memory := data.computation.GetOr(0), data.memory.GetOr(0);
        assert Find(t, id.value) == Some(data);
        return;
      } else if |t| == 1 {
        computation, memory := data.computation.GetOr(0), data.memory.GetOr(0);
        assert i == 0;
        return;
      }
      i := i + 1;
    }
  }

  /** The id's own entry wins whenever the report has it, however many other entries there are. */
  lemma CorrelateExact(t: Transactions, i: nat)
    requires i < |t| && t[i].0 != ""
    ensures Correlate(t, JStr(t[i].0)) == EntryCost(t[i].1)
  {
  }

  /** Without a matching id the only entry is taken; with several entries nothing is. */
  lemma CorrelateFallback(t: Transactions, txId: JsonValue)
    requires AsId(txId).None? || !HasKey(t, AsId(txId).value)
    ensures |t| == 1 ==> Correlate(t, txId) == EntryCost(t[0].1)
    ensures |t| != 1 ==> Correlate(t, txId) == (0, 0)
  {
  }

  /** The result does not depend on the order in which the report lists its entries. */
  lemma CorrelateOrderFree(t: Transactions, u: Transactions, txId: JsonValue)
    requires |t| == |u|
    requires forall k | 0 <= k < |t| :: t[k] in u
    requires forall k | 0 <= k < |u| :: u[k] in t
    ensures Correlate(t, txId) == Correlate(u, txId)
  {
    var id := AsId(txId);
    if id.Some? && HasKey(t, id.value) {
      var i :| 0 <= i < |t| && t[i].0 == id.value;
      assert t[i] in u;
      var j :| 0 <= j < |u| && u[j] == t[i];
      assert Find(u, id.value) == Some(t[i].1);
    }
    if id.Some? && HasKey(u, id.value) {
      var j :| 0 <= j < |u| && u[j].0 == id.value;
      assert u[j] in t;
      var i :| 0 <= i < |t| && t[i] == u[j];
      assert HasKey(t, id.value);
    }
    if |t| == 1 {
      assert t[0] in u;
    }
  }

  /** What `execute_draw_phase` returns: the phase name, the outcome, the correlated cost, `tx_id or ""` and the error. */
  datatype ComputationResult = ComputationResult(
    txName: string, success: bool, computation: int, memory: int, txId: JsonValue, error: Option<Message>)

  /** One phase call: the CLI response and the report fetched after it. */
  datatype PhaseCall = PhaseCall(cli: CliOutput, report: Transactions)

  /**
   * `str(output)[:200]` on raw CLI text: the first 200 characters. A JSON error
   * value is kept whole, because its `str` form is not modelled.
   */
  function Truncate(m: Message): (r: Message)
    ensures m.Raw? ==> r.Raw? && r.text <= m.text && |r.text| <= 200
    ensures m.Raw? && |m.text| <= 200 ==> r == m
    ensures m.Raw? && |m.text| > 200 ==> |r.text| == 200
    ensures m.ErrorValue? ==> r == m
  {
    match m
    case Raw(text) => Raw(if |text| <= 200 then text else text[..200])
    case ErrorValue(v) => m
  }

  /** `tx_id or ""`: the id the call reported, or the empty string when it reported none. */
  function PhaseTxId(c: PhaseCall): JsonValue {
    var id := RunFlowTx(c.cli).txId;
    if Truthy(id) then id else JStr("")
  }

  /** The phase succeeded. */
  predicate Succeeded(c: PhaseCall) {
    RunFlowTx(c.cli).success
  }

  /** The phase's (computation, memory) attributed through the report. */
  function Cost(c: PhaseCall): (int, int) {
    Correlate(c.report, RunFlowTx(c.cli).txId)
  }

  method ExecuteDrawPhase(name: string, c: PhaseCall) returns (r: ComputationResult)
    ensures r.success == Succeeded(c)
    ensures (r.computation, r.memory) == Cost(c)
    ensures r.error.None? <==> r.success
    ensures !r.success ==> r.error == Some(Truncate(RunFlowTx(c.cli).output))
    ensures r.txName == name
    ensures r.txId == PhaseTxId(c)
  {
    var tx := RunFlowTx(c.cli);
    var computation, memory := CorrelateLoop(c.report, tx.txId);
    r := ComputationResult(name, tx.success, computation, memory,
                           if Truthy(tx.txId) then tx.txId else JStr(""),
                           if tx.success then None else Some(Truncate(tx.output)));
  }

  // ================================================================ get_draw_status

  /** One element of the Cadence struct's `fields`: its `name` and `value.value` (`JNull` when missing). */
  datatype StatusField = StatusField(name: JsonValue, value: JsonValue)

  /**
   * Both answers of the status script: the structured fields (`None` when the JSON
   * call failed or did not decode to an object) and the text of the fallback call.
   */
  datatype StatusReply = StatusReply(fields: Option<seq<StatusField>>, text: string)

  type Status = map<JsonValue, JsonValue>

  /** "true" and "false" strings become booleans; anything else is kept. */
  function ConvertFlag(v: JsonValue): (w: JsonValue)
    ensures v == JStr("true") ==> w == JBool(true)
    ensures v == JStr("false") ==> w == JBool(false)
    ensures v != JStr("true") && v != JStr("false") ==> w == v
  {
    if v == JStr("true") then JBool(true) else if v == JStr("false") then JBool(false) else v
  }

  /** A field is the last one carrying its name. */
  predicate LastWithName(fields: seq<StatusField>, i: nat) {
    i < |fields| && forall j | i < j < |fields| :: fields[j].name != fields[i].name
  }

  /** The dictionary the fields build when each one is stored in turn under its name. */
  function FieldsMap(fields: seq<StatusField>): Status {
    if fields == [] then map[]
    else
      var last := fields[|fields| - 1];
      FieldsMap(fields[..|fields| - 1])[last.name := ConvertFlag(last.value)]
  }

  /** Every field name is a key, nothing else is, and each key holds the value of the last field with that name. */
  lemma FieldsMapContents(fields: seq<StatusField>)
    ensures forall k :: k in FieldsMap(fields) <==> exists i | 0 <= i < |fields| :: fields[i].name == k
    ensures forall i | 0 <= i < |fields| && LastWithName(fields, i) :: FieldsMap(fields)[fields[i].name] == ConvertFlag(fields[i].value)
  {
    FieldsMapKeys(fields);
    FieldsMapValues(fields);
  }

  lemma {:induction false} FieldsMapKeys(fields: seq<StatusField>)
    ensures forall k :: k in FieldsMap(fields) <==> exists i | 0 <= i < |fields| :: fields[i].name == k
  {
    if fields != [] {
      var init := fields[..|fields| - 1];
      var last := fields[|fields| - 1];
      FieldsMapKeys(init);
      forall k
        ensures k in FieldsMap(fields) <==> exists i | 0 <= i < |fields| :: fields[i].name == k
      {
        if k == last.name {
          assert fields[|fields| - 1].name == k;
        } else {
          if k in FieldsMap(init) {
            var i :| 0 <= i < |init| && init[i].name == k;
            assert fields[i].name == k;
          }
          if exists i | 0 <= i < |fields| :: fields[i].name == k {
            var i :| 0 <= i < |fields| && fields[i].name == k;
            assert init[i].name == k;
          }
        }
      }
    }
  }

  lemma {:induction false} FieldsMapValues(fields: seq<StatusField>)
    ensures forall i | 0 <= i < |fields| && LastWithName(fields, i) ::
      fields[i].name in FieldsMap(fields) && FieldsMap(fields)[fields[i].name] == ConvertFlag(fields[i].value)
  {
    if fields != [] {
      var init := fields[..|fields| - 1];
      FieldsMapValues(init);
      forall i | 0 <= i < |fields| && LastWithName(fields, i)
        ensures fields[i].name in FieldsMap(fields) && FieldsMap(fields)[fields[i].name] == ConvertFlag(fields[i].value)
      {
        if i < |fields| - 1 {
          assert init[i] == fields[i];
          assert LastWithName(init, i);
        }
      }
    }
  }

  /** The loop that builds `status` from the fields, later fields overwriting earlier ones. */
  method StatusFromFields(fields: seq<StatusField>) returns (status: Status)
    ensures status == FieldsMap(fields)
  {
    status := map[];
    for n := 0 to |fields|
      invariant status == FieldsMap(fields[..n])
    {
      assert fields[..n + 1][..n] == fields[..n];
      status := status[fields[n].name := ConvertFlag(fields[n].value)];
    }
    assert fields[..|fields|] == fields;
  }

  /** The status when the structured answer is empty or missing: four flags found in the text. */
  function TextStatus(text: string): (s: Status)
    ensures s.Keys == {JStr("isBatchComplete"), JStr("isReadyForCompletion"), JStr("canDrawNow"), JStr("isPendingDrawInProgress")}
    ensures s[JStr("isBatchComplete")] == JBool(Contains(text, "isBatchComplete: true"))
  {
    map[JStr("isBatchComplete") := JBool(Contains(text, "isBatchComplete: true")),
        JStr("isReadyForCompletion") := JBool(Contains(text, "isReadyForCompletion: true")),
        JStr("canDrawNow") := JBool(Contains(text, "canDrawNow: true")),
        JStr("isPendingDrawInProgress") := JBool(Contains(text, "isPendingDrawInProgress: true"))]
  }

  /** The status the driver reads: the structured fields when there are any, else the text flags. */
  function DrawStatus(reply: StatusReply): Status {
    if reply.fields.Some? && reply.fields.value != [] then FieldsMap(reply.fields.value)
    else TextStatus(reply.text)
  }

  method GetDrawStatus(reply: StatusReply) returns (status: Status)
    ensures status == DrawStatus(reply)
  {
    if reply.fields.Some? {
      status := StatusFromFields(reply.fields.value);
      if reply.fields.value != [] {
        var fs := reply.fields.value;
        assert fs[|fs| - 1].name in status;
      }
      if |status| > 0 {
        return;
      }
    }
    status := TextStatus(reply.text);
  }

  /** `status.get('isBatchComplete', False)` taken as a truth value. */
  predicate IsBatchComplete(status: Status) {
    JStr("isBatchComplete") in status && Truthy(status[JStr("isBatchComplete")])
  }

  /** The index of the last field named `isBatchComplete`, if any. */
  function LastBatchCompleteField(fields: seq<StatusField>): (r: Option<nat>)
    ensures r.Some? ==> LastWithName(fields, r.value) && fields[r.value].name == JStr("isBatchComplete")
    ensures r.None? ==> forall i | 0 <= i < |fields| :: fields[i].name != JStr("isBatchComplete")
  {
    if fields == [] then None
    else if fields[|fields| - 1].name == JStr("isBatchComplete") then Some(|fields| - 1)
    else
      var r := LastBatchCompleteField(fields[..|fields| - 1]);
      assert r.Some? ==> LastWithName(fields[..|fields| - 1], r.value);
      r
  }

  /** Whether a status reply says batch processing is complete, read off the last field of that name or the text. */
  predicate Done(reply: StatusReply) {
    if reply.fields.Some? && reply.fields.value != [] then
      var last := LastBatchCompleteField(reply.fields.value);
      last.Some? && Truthy(ConvertFlag(reply.fields.value[last.value].value))
    else Contains(reply.text, "isBatchComplete: true")
  }

  /** The completion flag the driver reads from the status agrees with `Done` on every reply. */
  lemma DoneMeansComplete(reply: StatusReply)
    ensures IsBatchComplete(DrawStatus(reply)) == Done(reply)
  {
    if reply.fields.Some? && reply.fields.value != [] {
      var fs := reply.fields.value;
      FieldsMapContents(fs);
      var last := LastBatchCompleteField(fs);
      if last.None? {
        assert JStr("isBatchComplete") !in FieldsMap(fs);
      }
    }
  }

  // ================================================================ run_full_draw_benchmark

  /** A phase record. */
  datatype PhaseResult = PhaseResult(
    phaseName: string, totalComputation: int, totalMemory: int, txCount: int,
    avgComputationPerTx: real, itemsProcessed: int, computationPerItem: real)

  /** A run record (its timestamp is left out). */
  datatype BenchmarkRun = BenchmarkRun(
    userCount: int, batchSize: int, phases: seq<PhaseResult>,
    totalComputation: int, totalMemory: int, totalTxCount: int)

  /** The safety ceiling on batch transactions: `user_count // batch_size + 5`. */
  function MaxBatches(userCount: int, batchSize: int): int
    requires batchSize != 0
  {
    FloorDiv(userCount, batchSize) + 5
  }

  /** The sum of the computations of the successful calls among `bs`. */
  function SucceededCost(bs: seq<PhaseCall>): int {
    if bs == [] then 0
    else SucceededCost(bs[..|bs| - 1]) + (if Succeeded(bs[|bs| - 1]) then Cost(bs[|bs| - 1]).0 else 0)
  }

  function SumComputation(ps: seq<PhaseResult>): int {
    if ps == [] then 0 else SumComputation(ps[..|ps| - 1]) + ps[|ps| - 1].totalComputation
  }

  function SumMemory(ps: seq<PhaseResult>): int {
    if ps == [] then 0 else SumMemory(ps[..|ps| - 1]) + ps[|ps| - 1].totalMemory
  }

  function SumTx(ps: seq<PhaseResult>): int {
    if ps == [] then 0 else SumTx(ps[..|ps| - 1]) + ps[|ps| - 1].txCount
  }

  /**
   * How the batch loop may stop after issuing `count` batches: never past the
   * ceiling, at least one batch when the ceiling is positive, every batch but the
   * last succeeded without completing, and a stop before the ceiling is due to
   * the last batch failing or completing.
   */
  predicate BatchLoopStops(maxBatches: int, batches: seq<PhaseCall>, statuses: seq<StatusReply>, count: int) {
    && 0 <= count <= |batches| && count <= |statuses|
    && (if maxBatches > 0 then 0 < count <= maxBatches else count == 0)
    && (forall i | 0 <= i < count - 1 :: Succeeded(batches[i]) && !Done(statuses[i]))
    && (0 < count < maxBatches ==> !Succeeded(batches[count - 1]) || Done(statuses[count - 1]))
  }

  /**
   * The batch loop: issues a batch, stops at the first failure (which still counts
   * as issued) or once the status says the batch is complete, and never issues
   * more than the ceiling. `computations` are the successful batches' costs.
   */
  method ProcessBatches(maxBatches: int, batches: seq<PhaseCall>, statuses: seq<StatusReply>)
    returns (count: nat, total: int, computations: seq<int>)
    requires |batches| >= maxBatches && |statuses| >= maxBatches
    ensures BatchLoopStops(maxBatches, batches, statuses, count)
    ensures total == SucceededCost(batches[..count])
    ensures total == Sum(computations)
  {
    count, total, computations := BatchLoop(Ceiling(maxBatches), batches, statuses);
    ProgressStops(maxBatches, batches, statuses, count);
    OkCostMatches(batches, statuses, Ceiling(maxBatches), count);
  }

  /** The loop of `ProcessBatches` under a ceiling of `n` batches, stated over the batches' progress. */
  method BatchLoop(n: nat, batches: seq<PhaseCall>, statuses: seq<StatusReply>)
    returns (count: nat, total: int, computations: seq<int>)
    requires n <= |batches| && n <= |statuses|
    ensures count <= n && (n > 0 ==> count > 0)
    ensures forall i | 0 <= i < count - 1 :: Progress(batches, statuses, n)[i].ok && !Progress(batches, statuses, n)[i].done
    ensures 0 < count < n ==> !Progress(batches, statuses, n)[count - 1].ok || Progress(batches, statuses, n)[count - 1].done
    ensures total == OkCost(Progress(batches, statuses, n), count) == Sum(computations)
  {
    count, total, computations := 0, 0, [];
    ghost var p := Progress(batches, statuses, n);
    while count < n
      invariant count <= n
      invariant forall i | 0 <= i < count :: p[i].ok && !p[i].done
      invariant total == OkCost(p, count) == Sum(computations)
    {
      var r, complete := BatchIteration(batches, statuses, n, count);
      count := count + 1;
      if !r.success {
        break;
      }
      SumAppend(computations, r.computation);
      computations := computations + [r.computation];
      total := total + r.computation;
      if complete {
        break;
      }
    }
  }

  /** One pass of the batch loop: the batch, then the status only when the batch succeeded. */
  method BatchIteration(bs: seq<PhaseCall>, ss: seq<StatusReply>, n: nat, i: nat)
    returns (r: ComputationResult, complete: bool)
    requires i < n <= |bs| && n <= |ss|
    ensures r.success == Progress(bs, ss, n)[i].ok
    ensures r.computation == Progress(bs, ss, n)[i].cost
    ensures r.success ==> complete == Progress(bs, ss, n)[i].done
  {
    r := ExecuteDrawPhase("processDrawBatch_" + NatToString(i + 1), bs[i]);
    ProgressAt(bs, ss, n, i);
    complete := false;
    if r.success {
      var status := GetDrawStatus(ss[i]);
      DoneMeansComplete(ss[i]);
      complete := IsBatchComplete(status);
    }
  }

  /** The number of batches the ceiling allows. */
  function Ceiling(maxBatches: int): nat {
    if maxBatches > 0 then maxBatches else 0
  }

  /** What one batch means to the loop: it succeeded, the status then read complete, its computation. */
  datatype BatchProgress = BatchProgress(ok: bool, done: bool, cost: int)

  function ProgressOf(c: PhaseCall, s: StatusReply): BatchProgress {
    BatchProgress(Succeeded(c), Done(s), Cost(c).0)
  }

  /** The progress of the first `n` batches. */
  function Progress(bs: seq<PhaseCall>, ss: seq<StatusReply>, n: nat): (p: seq<BatchProgress>)
    requires n <= |bs| && n <= |ss|
    ensures |p| == n
  {
    if n == 0 then [] else Progress(bs, ss, n - 1) + [ProgressOf(bs[n - 1], ss[n - 1])]
  }

  lemma {:induction false} ProgressAt(bs: seq<PhaseCall>, ss: seq<StatusReply>, n: nat, i: nat)
    requires i < n <= |bs| && n <= |ss|
    ensures Progress(bs, ss, n)[i] == ProgressOf(bs[i], ss[i])
    decreases n
  {
    if i < n - 1 {
      ProgressAt(bs, ss, n - 1, i);
    }
  }

  /** The computations of the successful batches among the first `k`. */
  function OkCost(p: seq<BatchProgress>, k: nat): int
    requires k <= |p|
  {
    if k == 0 then 0 else OkCost(p, k - 1) + (if p[k - 1].ok then p[k - 1].cost else 0)
  }

  lemma {:induction false} OkCostMatches(bs: seq<PhaseCall>, ss: seq<StatusReply>, n: nat, k: nat)
    requires k <= n <= |bs| && n <= |ss|
    ensures OkCost(Progress(bs, ss, n), k) == SucceededCost(bs[..k])
    decreases k
  {
    if k > 0 {
      OkCostMatches(bs, ss, n, k - 1);
      ProgressAt(bs, ss, n, k - 1);
      SucceededCostStep(bs, k);
    }
  }

  lemma SucceededCostStep(bs: seq<PhaseCall>, k: nat)
    requires 0 < k <= |bs|
    ensures SucceededCost(bs[..k]) ==
      SucceededCost(bs[..k - 1]) + (if Succeeded(bs[k - 1]) then Cost(bs[k - 1]).0 else 0)
  {
    assert bs[..k][..k - 1] == bs[..k - 1];
  }

  /** Where the loop stops in terms of progress is where `BatchLoopStops` says it may. */
  lemma ProgressStops(maxBatches: int, bs: seq<PhaseCall>, ss: seq<StatusReply>, count: nat)
    requires |bs| >= maxBatches && |ss| >= maxBatches
    requires if maxBatches > 0 then 0 < count <= maxBatches else count == 0
    requires forall i | 0 <= i < count - 1 ::
      Progress(bs, ss, Ceiling(maxBatches))[i].ok && !Progress(bs, ss, Ceiling(maxBatches))[i].done
    requires 0 < count < maxBatches ==>
      !Progress(bs, ss, Ceiling(maxBatches))[count - 1].ok || Progress(bs, ss, Ceiling(maxBatches))[count - 1].done
    ensures BatchLoopStops(maxBatches, bs, ss, count)
  {
    ProgressContinues(bs, ss, Ceiling(maxBatches), count - 1);
    ProgressLast(bs, ss, Ceiling(maxBatches), count);
  }

  lemma ProgressContinues(bs: seq<PhaseCall>, ss: seq<StatusReply>, n: nat, m: int)
    requires m <= n <= |bs| && n <= |ss|
    requires forall i | 0 <= i < m :: Progress(bs, ss, n)[i].ok && !Progress(bs, ss, n)[i].done
    ensures forall i | 0 <= i < m :: Succeeded(bs[i]) && !Done(ss[i])
  {
    forall i | 0 <= i < m
      ensures Succeeded(bs[i]) && !Done(ss[i])
    {
      ProgressAt(bs, ss, n, i);
    }
  }

  lemma ProgressLast(bs: seq<PhaseCall>, ss: seq<StatusReply>, n: nat, count: nat)
    requires n <= |bs| && n <= |ss|
    requires 0 < count < n ==> !Progress(bs, ss, n)[count - 1].ok || Progress(bs, ss, n)[count - 1].done
    ensures 0 < count < n ==> !Succeeded(bs[count - 1]) || Done(ss[count - 1])
  {
    if 0 < count < n {
      ProgressAt(bs, ss, n, count - 1);
    }
  }

  function AvgOrZero(total: int, n: int): real {
    if n > 0 then total as real / n as real else 0.0
  }

  /** One phase's record when it ran as one transaction with the given (computation, memory). */
  function SinglePhase(name: string, cost: (int, int)): PhaseResult {
    PhaseResult(name, cost.0, cost.1, 1, cost.0 as real, 0, 0.0)
  }

  /** The batch phase's record after `count` batches costing `total` in all. */
  function BatchPhaseRecord(userCount: int, count: int, total: int): PhaseResult {
    PhaseResult("processDrawBatch", total, 0, count, AvgOrZero(total, count), userCount, AvgOrZero(total, userCount))
  }

  /** The record of a phase that is kept only when it succeeded. */
  function Recorded(name: string, ok: bool, cost: (int, int)): seq<PhaseResult> {
    if ok then [SinglePhase(name, cost)] else []
  }

  /**
   * The four phases. A failed start gives no run; the batch phase is always
   * recorded; randomness and completion are recorded only when they succeed;
   * the run's totals are the sums over the recorded phases, in execution order.
   */
  method RunFullDrawBenchmark(
    userCount: int, batchSize: int,
    start: PhaseCall, batches: seq<PhaseCall>, statuses: seq<StatusReply>,
    request: PhaseCall, complete: PhaseCall)
    returns (run: Option<BenchmarkRun>)
    requires batchSize != 0
    requires |batches| >= MaxBatches(userCount, batchSize) && |statuses| >= MaxBatches(userCount, batchSize)
    ensures run.None? <==> !Succeeded(start)
    ensures run.Some? ==> |run.value.phases| >= 2
    ensures run.Some? ==>
      var count := run.value.phases[1].txCount;
      && BatchLoopStops(MaxBatches(userCount, batchSize), batches, statuses, count)
      && run.value.phases ==
           [SinglePhase("startPoolDraw", Cost(start)),
            BatchPhaseRecord(userCount, count, SucceededCost(batches[..count]))]
           + Recorded("requestDrawRandomness", Succeeded(request), Cost(request))
           + Recorded("completePoolDraw", Succeeded(complete), Cost(complete))
      && run.value.totalComputation ==
           Cost(start).0 + SucceededCost(batches[..count])
           + (if Succeeded(request) then Cost(request).0 else 0)
           + (if Succeeded(complete) then Cost(complete).0 else 0)
    ensures run.Some? ==>
      && run.value.totalComputation == SumComputation(run.value.phases)
      && run.value.totalMemory == SumMemory(run.value.phases)
      && run.value.totalTxCount == SumTx(run.value.phases)
  {
    var s := ExecuteDrawPhase("startPoolDraw", start);
    if !s.success {
      return None;
    }
    var phases := [SinglePhase("startPoolDraw", (s.computation, s.memory))];

    var maxBatches := MaxBatches(userCount, batchSize);
    var count, total, computations := ProcessBatches(maxBatches, batches, statuses);
    phases := phases + [BatchPhaseRecord(userCount, count, total)];
    ghost var head := phases;

    var q := ExecuteDrawPhase("requestDrawRandomness", request);
    if q.success {
      phases := phases + [SinglePhase("requestDrawRandomness", (q.computation, q.memory))];
    }
    assert phases == head + Recorded("requestDrawRandomness", q.success, (q.computation, q.memory));
    ghost var middle := phases;

    var c := ExecuteDrawPhase("completePoolDraw", complete);
    if c.success {
      phases := phases + [SinglePhase("completePoolDraw", (c.computation, c.memory))];
    }
    assert phases == middle + Recorded("completePoolDraw", c.success, (c.computation, c.memory));

    PairTotal(head[0], head[1]);
    assert head == [head[0], head[1]];
    RecordedTotal(head, "requestDrawRandomness", q.success, (q.computation, q.memory),
                  "completePoolDraw", c.success, (c.computation, c.memory));
    run := Some(BenchmarkRun(userCount, batchSize, phases,
                             SumComputation(phases), SumMemory(phases), SumTx(phases)));
  }

  /** The total computation of two phases. */
  lemma PairTotal(a: PhaseResult, b: PhaseResult)
    ensures SumComputation([a, b]) == a.totalComputation + b.totalComputation
  {
    assert [a, b][..1] == [a];
    assert [a][..0] == [];
    assert SumComputation([a]) == a.totalComputation;
  }

  /** The total computation over a head and two optional phases. */
  lemma RecordedTotal(head: seq<PhaseResult>, n1: string, ok1: bool, c1: (int, int), n2: string, ok2: bool, c2: (int, int))
    ensures SumComputation(head + Recorded(n1, ok1, c1) + Recorded(n2, ok2, c2))
      == SumComputation(head) + (if ok1 then c1.0 else 0) + (if ok2 then c2.0 else 0)
  {
    RunTotalSplits(head, Recorded(n1, ok1, c1));
    RunTotalSplits(head + Recorded(n1, ok1, c1), Recorded(n2, ok2, c2));
  }

  /** The run's total computation is the sum of its phases' computations, whatever was recorded. */
  lemma {:induction false} RunTotalSplits(ps: seq<PhaseResult>, qs: seq<PhaseResult>)
    ensures SumComputation(ps + qs) == SumComputation(ps) + SumComputation(qs)
  {
    if qs != [] {
      assert (ps + qs)[..|ps + qs| - 1] == ps + qs[..|qs| - 1];
      RunTotalSplits(ps, qs[..|qs| - 1]);
    } else {
      assert ps + qs == ps;
    }
  }

  /** Every batch call is either a success whose cost counts or a failure that adds nothing. */
  lemma {:induction false} SucceededCostBounds(bs: seq<PhaseCall>)
    requires forall i | 0 <= i < |bs| :: Cost(bs[i]).0 >= 0
    ensures 0 <= SucceededCost(bs)
    ensures forall i | 0 <= i < |bs| && Succeeded(bs[i]) :: Cost(bs[i]).0 <= SucceededCost(bs)
  {
    if bs != [] {
      SucceededCostBounds(bs[..|bs| - 1]);
      assert forall i | 0 <= i < |bs| - 1 :: bs[..|bs| - 1][i] == bs[i];
    }
  }

  // ================================================================ variability block of main

  /** What one run adds to the variability list: its first batch phase's computation, if it has one. */
  function Contribution(run: Option<BenchmarkRun>): Option<int> {
    match run
    case None => None
    case Some(r) =>
      match BatchPhase(r.phases)
      case None => None
      case Some(p) => Some(p.totalComputation)
  }

  /** The batch-phase computations of the runs that produced a record. */
  function BatchComputations(runs: seq<Option<BenchmarkRun>>): (cs: seq<int>)
    ensures |cs| <= |runs|
  {
    if runs == [] then []
    else
      var rest := BatchComputations(runs[..|runs| - 1]);
      match Contribution(runs[|runs| - 1])
      case None => rest
      case Some(c) => rest + [c]
  }

  /** One more run appends its batch computation, or nothing when it has no record or no batch phase. */
  lemma BatchComputationsAppend(runs: seq<Option<BenchmarkRun>>, run: Option<BenchmarkRun>)
    ensures Contribution(run).None? ==> BatchComputations(runs + [run]) == BatchComputations(runs)
    ensures Contribution(run).Some? ==> BatchComputations(runs + [run]) == BatchComputations(runs) + [Contribution(run).value]
  {
    assert (runs + [run])[..|runs|] == runs;
  }

  /**
   * The list is exactly the contributions of the contributing runs, in run order:
   * `idx` picks, in increasing order, every run that has a batch phase.
   */
  lemma {:induction false} BatchComputationsSources(runs: seq<Option<BenchmarkRun>>) returns (idx: seq<nat>)
    ensures |idx| == |BatchComputations(runs)|
    ensures forall k | 0 <= k < |idx| :: idx[k] < |runs| && Contribution(runs[idx[k]]) == Some(BatchComputations(runs)[k])
    ensures forall k, l | 0 <= k < l < |idx| :: idx[k] < idx[l]
    ensures forall i | 0 <= i < |runs| && Contribution(runs[i]).Some? :: i in idx
  {
    if runs == [] {
      idx := [];
    } else {
      var n := |runs| - 1;
      var front := runs[..n];
      var prev := BatchComputationsSources(front);
      assert runs == front + [runs[n]];
      BatchComputationsAppend(front, runs[n]);
      assert forall i | 0 <= i < n :: front[i] == runs[i];
      if Contribution(runs[n]).Some? {
        idx := prev + [n];
      } else {
        idx := prev;
      }
    }
  }

  /** The first phase named "processDrawBatch". */
  function BatchPhase(ps: seq<PhaseResult>): (r: Option<PhaseResult>)
    ensures r.Some? ==> r.value in ps && r.value.phaseName == "processDrawBatch"
    ensures r.None? ==> forall i | 0 <= i < |ps| :: ps[i].phaseName != "processDrawBatch"
  {
    if ps == [] then None
    else if ps[0].phaseName == "processDrawBatch" then Some(ps[0])
    else BatchPhase(ps[1..])
  }

  datatype Variability = Variability(runs: nat, minComp: int, maxComp: int, avgComp: real, ratio: real, highVariance: bool)

  /** The analysis printed when more than one run produced a batch computation. */
  function AnalyzeVariability(cs: seq<int>): (v: Option<Variability>)
    ensures v.Some? <==> |cs| > 1
    ensures v.Some? ==> v.value.minComp in cs && v.value.maxComp in cs
    ensures v.Some? ==> forall i | 0 <= i < |cs| :: v.value.minComp <= cs[i] <= v.value.maxComp
  {
    if |cs| <= 1 then None
    else
      var lo := MinOf(cs);
      var hi := MaxOf(cs);
      var ratio := if lo > 0 then hi as real / lo as real else 0.0;
      Some(Variability(|cs|, lo, hi, Sum(cs) as real / |cs| as real, ratio, ratio > 2.0))
  }

  /** The mean lies between the extremes; with a positive minimum the ratio is at least 1. */
  lemma VariabilityBounds(cs: seq<int>)
    requires |cs| > 1
    ensures var v := AnalyzeVariability(cs).value;
      && v.minComp as real <= v.avgComp <= v.maxComp as real
      && (v.minComp > 0 ==> v.ratio >= 1.0)
      && (v.minComp <= 0 ==> v.ratio == 0.0 && !v.highVariance)
      && (v.highVariance <==> v.minComp > 0 && v.maxComp > 2 * v.minComp)
  {
    var v := AnalyzeVariability(cs).value;
    SumBounds(cs, v.minComp, v.maxComp);
    MeanBetween(v.minComp, v.maxComp, Sum(cs), |cs|);
    if v.minComp > 0 {
      RatioFacts(v.minComp, v.maxComp, 2);
    }
  }

  /** Five runs costing 320, 340, 9500, 330, 335: the ratio is 29.6875 and the variance is flagged. */
  lemma VariabilityExample()
    ensures var v := AnalyzeVariability([320, 340, 9500, 330, 335]);
      v.Some? && v.value.minComp == 320 && v.value.maxComp == 9500
      && v.value.ratio == 29.6875 && v.value.highVariance
  {
    var cs := [320, 340, 9500, 330, 335];
    assert MinOf(cs) == 320 by {
      assert 320 in cs;
    }
    assert MaxOf(cs) == 9500 by {
      assert 9500 in cs;
    }
  }
}
