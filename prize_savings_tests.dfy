/**
 * test_prize_savings.py: the end-to-end test driver's decision logic — how a
 * transaction or script run is judged from its output, the pass/fail tally kept
 * by `check_result`, the pool-ID list parser and the ID-array argument builder,
 * the choice of the pool under test, the admin address, and the exit code.
 */
module PrizeSavingsTests {
  import opened Common
  import opened Text

  // ================================================================ run_flow_tx / run_flow_script

  /** `re.search(r'(panic|error|Error)', output)`; the longer "Transaction Error" alternative adds nothing. */
  predicate HasErrorWord(output: string) {
    Contains(output, "panic") || Contains(output, "error") || Contains(output, "Error")
  }

  /** `re.search(r'(already exists|skipping)', output)`. */
  predicate HasOverride(output: string) {
    Contains(output, "already exists") || Contains(output, "skipping")
  }

  /** `run_flow_tx`: the exit code is not consulted; an error word fails the call unless an override word is present. */
  function RunFlowTx(code: int, stdout: string, stderr: string): (bool, string) {
    var output := stdout + stderr;
    (!(HasErrorWord(output) && !HasOverride(output)), output)
  }

  /** `run_flow_script`: any error word fails the call, whatever the exit code. */
  function RunFlowScript(code: int, stdout: string, stderr: string): (bool, string) {
    var output := stdout + stderr;
    (!HasErrorWord(output), output)
  }

  /** A transaction fails exactly when an error word appears without an override word, on any exit code. */
  lemma TxClassification(code: int, stdout: string, stderr: string)
    ensures var (ok, output) := RunFlowTx(code, stdout, stderr);
      && output == stdout + stderr
      && (!ok <==> (Contains(output, "panic") || Contains(output, "error") || Contains(output, "Error"))
                   && !Contains(output, "already exists") && !Contains(output, "skipping"))
      && RunFlowTx(0, stdout, stderr) == RunFlowTx(code, stdout, stderr)
  {
  }

  /** A script is judged more strictly: a script that passes would pass as a transaction, and they differ only by an override word. */
  lemma ScriptStricterThanTx(code: int, stdout: string, stderr: string)
    ensures RunFlowScript(code, stdout, stderr).0 ==> RunFlowTx(code, stdout, stderr).0
    ensures RunFlowTx(code, stdout, stderr).0 && !RunFlowScript(code, stdout, stderr).0 <==>
            HasErrorWord(stdout + stderr) && HasOverride(stdout + stderr)
  {
  }

  /** An error word in either stream fails a script, and an override word in either stream saves a transaction. */
  lemma StreamsCombined(code: int, stdout: string, stderr: string, word: string)
    requires word in ["panic", "error", "Error"]
    requires Contains(stdout, word) || Contains(stderr, word)
    ensures !RunFlowScript(code, stdout, stderr).0
    ensures RunFlowTx(code, stdout, stderr).0 <==> HasOverride(stdout + stderr)
  {
    ContainsConcat(stdout, stderr, word);
  }

  /**
   * `run_command` turns a timeout into exit code -1 with "Command timed out" on
   * stderr; having no error word, that passes as a successful transaction and script.
   */
  lemma TimeoutPasses()
    ensures RunFlowTx(-1, "", "Command timed out").0 && RunFlowScript(-1, "", "Command timed out").0
  {
    var s := "Command timed out";
    assert "" + s == s;
    MissingCharNotContained(s, "panic", 0);
    MissingCharNotContained(s, "error", 1);
    MissingCharNotContained(s, "Error", 1);
  }

  // ================================================================ print_success / print_error / check_result / print_summary

  /** The module-global test counters and the list of failed test names. */
  class TestTally {
    var passed: nat
    var failed: nat
    var failedTests: seq<string>

    /** Every failure is recorded by name. */
    ghost predicate Valid()
      reads this
    {
      failed == |failedTests|
    }

    constructor ()
      ensures Valid()
      ensures passed == 0 && failed == 0 && failedTests == []
    {
      passed, failed, failedTests := 0, 0, [];
    }

    /** `print_success`: one more pass. */
    method PrintSuccess(msg: string)
      requires Valid()
      modifies this
      ensures Valid()
      ensures passed == old(passed) + 1 && failed == old(failed) && failedTests == old(failedTests)
    {
      passed := passed + 1;
    }

    /** `print_error`: one more failure, recorded under `msg`. */
    method PrintError(msg: string)
      requires Valid()
      modifies this
      ensures Valid()
      ensures passed == old(passed) && failed == old(failed) + 1 && failedTests == old(failedTests) + [msg]
    {
      failed := failed + 1;
      failedTests := failedTests + [msg];
    }

    /**
     * `check_result`: `pattern` is the pattern text (empty for none) and `found`
     * whether `re.search(pattern, output)` matched. Exactly one counter moves.
     */
    method CheckResult(success: bool, output: string, testName: string, pattern: string, found: bool) returns (ok: bool)
      requires Valid()
      modifies this
      ensures Valid()
      ensures ok == Verdict(success, testName, pattern, found).Pass?
      ensures ok ==> passed == old(passed) + 1 && failedTests == old(failedTests)
      ensures !ok ==> passed == old(passed) && failedTests == old(failedTests) + [Verdict(success, testName, pattern, found).name]
      ensures passed + failed == old(passed) + old(failed) + 1
    {
      if !success {
        PrintError(testName);
        return false;
      }
      if pattern != "" && !found {
        PrintError(testName + " (pattern not found)");
        return false;
      }
      PrintSuccess(testName);
      ok := true;
    }

    /** `print_summary`'s return value, the process exit code. */
    function ExitCode(): (code: int)
      requires Valid()
      reads this
      ensures code == 0 || code == 1
      ensures code == 0 <==> failedTests == []
    {
      if failed == 0 then 0 else 1
    }
  }

  /** What `check_result` records: a pass, or a failure under the name it prints. */
  datatype Result = Pass | Fail(name: string)

  function Verdict(success: bool, testName: string, pattern: string, found: bool): Result {
    if !success then Fail(testName)
    else if pattern != "" && !found then Fail(testName + " (pattern not found)")
    else Pass
  }

  /** A check passes iff the call succeeded and there is no pattern or it was found; a failure is filed under the test's name. */
  lemma VerdictFacts(success: bool, testName: string, pattern: string, found: bool)
    ensures Verdict(success, testName, pattern, found).Pass? <==> success && (pattern == "" || found)
    ensures Verdict(success, testName, pattern, found).Fail? ==> StartsWith(Verdict(success, testName, pattern, found).name, testName)
  {
    var v := Verdict(success, testName, pattern, found);
    if v.Fail? && success {
      assert v.name[..|testName|] == testName;
    }
  }

  // ================================================================ get_all_pool_ids

  /** `[0-9,\s]`. */
  predicate IsIdListChar(c: char) {
    IsDigit(c) || c == ',' || IsSpace(c)
  }

  /** `\[([0-9,\s]+)\]` matched at `i`, with the text between the brackets. */
  function IdListAt(s: string, i: nat): (r: Option<string>)
    ensures r.Some? ==> r.value != [] && forall k | 0 <= k < |r.value| :: IsIdListChar(r.value[k])
  {
    if !(i < |s| && s[i] == '[') then None
    else
      var j := RunEnd(s, i + 1, IsIdListChar);
      if j > i + 1 && j < |s| && s[j] == ']' then Some(s[i + 1..j]) else None
  }

  /** `[int(x.strip()) for x in items if x.strip()]`; `None` is the `ValueError` on an item such as `1 2`. */
  function ParseItems(items: seq<string>): (r: Option<seq<int>>)
    ensures r.Some? ==> |r.value| <= |items|
  {
    if items == [] then Some([])
    else
      var t := Strip(items[0]);
      var rest := ParseItems(items[1..]);
      if t == "" then rest
      else match PyInt(t)
        case None => None
        case Some(v) => if rest.Some? then Some([v] + rest.value) else None
  }

  /** `get_all_pool_ids`: the first bracketed list of the script's output (its success flag is not consulted), or `[]`. */
  function GetAllPoolIds(output: string): Option<seq<int>> {
    match Search(output, IdListAt)
    case None => Some([])
    case Some(group) => ParseItems(Split(group, ','))
  }

  /** The ID-array argument builder: `"[" + ",".join(str(id) for id in ids) + "]"`. */
  function FormatIdArray(ids: seq<nat>): (s: string)
    ensures |s| >= 2 && s[0] == '[' && s[|s| - 1] == ']'
  {
    "[" + Join(NatStrings(ids), ',') + "]"
  }

  function NatStrings(ids: seq<nat>): (r: seq<string>)
    ensures |r| == |ids| && forall k | 0 <= k < |ids| :: r[k] == NatToString(ids[k])
  {
    if ids == [] then [] else [NatToString(ids[0])] + NatStrings(ids[1..])
  }

  /** A decimal item is already stripped and reads back as its number. */
  lemma ItemValue(n: nat)
    ensures Strip(NatToString(n)) == NatToString(n) != ""
    ensures PyInt(NatToString(n)) == Some(n)
  {
    var d := NatToString(n);
    StripPadded(d, "");
    assert "" + d + "" == d;
    PyIntOfDigits(d);
    NatToStringValue(n);
  }

  /** Each decimal item reads back as its number. */
  lemma {:induction false} ParseNatStrings(ids: seq<nat>)
    ensures ParseItems(NatStrings(ids)) == Some(ids)
  {
    if ids != [] {
      ItemValue(ids[0]);
      assert NatStrings(ids)[1..] == NatStrings(ids[1..]);
      ParseNatStrings(ids[1..]);
      assert [ids[0]] + ids[1..] == ids;
    }
  }

  /** The characters of a joined list of decimals, with the commas between them. */
  lemma {:induction false} JoinedIsIdList(ids: seq<nat>)
    ensures forall k | 0 <= k < |Join(NatStrings(ids), ',')| :: IsDigit(Join(NatStrings(ids), ',')[k]) || Join(NatStrings(ids), ',')[k] == ','
  {
    if |ids| > 1 {
      JoinedIsIdList(ids[1..]);
      assert NatStrings(ids)[1..] == NatStrings(ids[1..]);
    }
  }

  /** No item of a list of decimals holds the separator. */
  lemma NoCommaInItems(ids: seq<nat>)
    ensures forall k | 0 <= k < |ids| :: ',' !in NatStrings(ids)[k]
  {
    forall k | 0 <= k < |ids| ensures ',' !in NatStrings(ids)[k] {
      var d := NatToString(ids[k]);
      forall m | 0 <= m < |d| ensures d[m] != ',' {
        assert IsDigit(d[m]);
      }
    }
  }

  /** The builder and the parser are inverse: the printed array reads back as the same IDs, the empty one included. */
  lemma FormatParseRoundTrip(ids: seq<nat>)
    ensures GetAllPoolIds(FormatIdArray(ids)) == Some(ids)
  {
    var body := Join(NatStrings(ids), ',');
    var s := FormatIdArray(ids);
    assert s == "[" + body + "]";
    JoinedIsIdList(ids);
    assert forall k | 1 <= k < 1 + |body| :: s[k] == body[k - 1];
    if ids == [] {
      assert s == "[]";
      forall j | 0 <= j <= |s| ensures IdListAt(s, j).None? {
        if j == 0 { RunEndOf(s, 1, 1, IsIdListChar); }
      }
      SearchFacts(s, IdListAt);
    } else {
      assert body != [] by {
        assert |NatStrings(ids)[0]| > 0;
      }
      RunEndOf(s, 1, 1 + |body|, IsIdListChar);
      assert s[1..1 + |body|] == body;
      SearchFirst(s, IdListAt);
      NoCommaInItems(ids);
      SplitJoin(NatStrings(ids), ',');
      ParseNatStrings(ids);
    }
  }

  /** Output without a bracketed group gives no IDs. */
  lemma NoGroupNoIds(output: string)
    requires forall i | 0 <= i <= |output| :: IdListAt(output, i).None?
    ensures GetAllPoolIds(output) == Some([])
  {
    SearchFacts(output, IdListAt);
  }

  // ================================================================ test_setup / get_admin_address

  /** The IDs of `pools` not in `existing`, in order. */
  function NewIds(pools: seq<int>, existing: seq<int>): (r: seq<int>)
    ensures forall k | 0 <= k < |r| :: r[k] in pools && r[k] !in existing
    ensures forall k | 0 <= k < |pools| && pools[k] !in existing :: pools[k] in r
  {
    if pools == [] then []
    else (if pools[0] in existing then [] else [pools[0]]) + NewIds(pools[1..], existing)
  }

  /** test_setup's choice of pool: the highest new ID, else the highest ID, else none (setup fails). */
  function SelectPoolId(existing: seq<int>, pools: seq<int>): Option<int> {
    var added := NewIds(pools, existing);
    if added != [] then Some(MaxOf(added))
    else if pools != [] then Some(MaxOf(pools))
    else None
  }

  /** The chosen pool is one the contract lists; it is new whenever a new one exists, and no new one is higher. */
  lemma SelectPoolFacts(existing: seq<int>, pools: seq<int>)
    ensures SelectPoolId(existing, pools).None? <==> pools == []
    ensures SelectPoolId(existing, pools).Some? ==> SelectPoolId(existing, pools).value in pools
    ensures (exists k | 0 <= k < |pools| :: pools[k] !in existing) ==>
              var id := SelectPoolId(existing, pools).value;
              id !in existing && forall k | 0 <= k < |pools| && pools[k] !in existing :: pools[k] <= id
    ensures (forall k | 0 <= k < |pools| :: pools[k] in existing) && pools != [] ==>
              SelectPoolId(existing, pools) == Some(MaxOf(pools))
  {
    var added := NewIds(pools, existing);
    if added != [] {
      var id := MaxOf(added);
      forall k | 0 <= k < |pools| && pools[k] !in existing ensures pools[k] <= id {
        var m :| 0 <= m < |added| && added[m] == pools[k];
      }
    }
  }

  /** get_admin_address's normalisation of the configured address. */
  function AdminAddress(addr: string): (r: string)
    ensures StartsWith(r, "0x")
  {
    if StartsWith(addr, "0x") then addr else "0x" + addr
  }

  /** Prefixing happens once: an address already prefixed is kept, any other gains exactly the prefix. */
  lemma AdminAddressFacts(addr: string)
    ensures AdminAddress(AdminAddress(addr)) == AdminAddress(addr)
    ensures StartsWith(addr, "0x") ==> AdminAddress(addr) == addr
    ensures !StartsWith(addr, "0x") ==> AdminAddress(addr) == "0x" + addr
  {
    var r := AdminAddress(addr);
    assert StartsWith(r, "0x");
  }
}
