/**
 * The test orchestration script: the suites it builds from command results, the selection
 * of suites from its configuration, the summary counted while the JSON report is built,
 * and the JUnit XML text. Commands, clocks and the file system are parameters: a command
 * is answered by `exec`, and every duration arrives already rendered with three decimals.
 */
module RunTests {
  import opened Common
  import IntegrationMain

  const PASS: string := "PASS"
  const FAIL: string := "FAIL"
  const SKIP: string := "SKIP"
  const ERROR: string := "ERROR"

  /** How far the JSON report keeps a test's output and error output. */
  const OUTPUT_LIMIT: nat := 1000

  /** TestResult; `duration` is the value as `:.3f` renders it. */
  datatype TestResult = TestResult(name: string, status: string, duration: string, message: string,
                                   output: string, errorOutput: string)

  /** TestSuite, without the setup and teardown times. */
  datatype TestSuite = TestSuite(name: string, tests: seq<TestResult>, duration: string)

  /** What run_command returns for one command. */
  datatype CommandResult = CommandResult(code: int, stdout: string, stderr: string, duration: string)

  predicate FailedStatus(s: string) { s == FAIL || s == ERROR }

  predicate IsPass(t: TestResult) { t.status == PASS }
  predicate IsFailed(t: TestResult) { FailedStatus(t.status) }
  predicate IsSkipped(t: TestResult) { t.status == SKIP }

  // ---------------------------------------------------------------------------------------
  // Suites built from command results

  function StatusOf(code: int): (s: string)
    ensures s == PASS <==> code == 0
    ensures s == FAIL <==> code != 0
  {
    if code == 0 then PASS else FAIL
  }

  const UNIT_CATEGORIES: seq<string> :=
    ["test_core_functionality", "test_memory_management", "test_tensor_operations", "test_performance_monitoring"]

  function CategoryTest(category: string, r: CommandResult): TestResult
  {
    TestResult(category, StatusOf(r.code), r.duration,
               "Unit test category " + category + (if r.code == 0 then " passed" else " failed"),
               r.stdout, r.stderr)
  }

  /** One test per category, in order, each passing iff `make test-<category>` exits with 0. */
  function CategoryTests(exec: seq<string> -> CommandResult, categories: seq<string>): (ts: seq<TestResult>)
    ensures |ts| == |categories|
    ensures forall k :: 0 <= k < |categories| ==>
      ts[k].name == categories[k] && (ts[k].status == PASS <==> exec(["make", "test-" + categories[k]]).code == 0)
  {
    if categories == [] then []
    else
      var init := categories[..|categories| - 1];
      var last := categories[|categories| - 1];
      CategoryTests(exec, init) + [CategoryTest(last, exec(["make", "test-" + last]))]
  }

  /** run_unit_tests: a build failure is a suite of one failed test; otherwise one test per
      category (`make test-<category>`), then the coverage run when enabled. */
  function UnitTests(exec: seq<string> -> CommandResult, coverage: bool, elapsed: string): (s: TestSuite)
    ensures s.name == "Unit Tests"
    ensures exec(["make", "clean", "all"]).code != 0 ==>
      |s.tests| == 1 && s.tests[0].name == "unit_tests_build" && s.tests[0].status == FAIL
      && s.tests[0].errorOutput == exec(["make", "clean", "all"]).stderr
    ensures exec(["make", "clean", "all"]).code == 0 ==>
      |s.tests| == |UNIT_CATEGORIES| + (if coverage then 1 else 0)
      && (forall k :: 0 <= k < |UNIT_CATEGORIES| ==>
            s.tests[k].name == UNIT_CATEGORIES[k]
            && (s.tests[k].status == PASS <==> exec(["make", "test-" + UNIT_CATEGORIES[k]]).code == 0))
      && (coverage ==> s.tests[|UNIT_CATEGORIES|].name == "coverage_analysis")
  {
    var build := exec(["make", "clean", "all"]);
    if build.code != 0 then
      TestSuite("Unit Tests", [TestResult("unit_tests_build", FAIL, build.duration, "Failed to build unit tests", "", build.stderr)], elapsed)
    else
      var categories := CategoryTests(exec, UNIT_CATEGORIES);
      var cov := exec(["make", "coverage"]);
      var extra := if coverage then [TestResult("coverage_analysis", StatusOf(cov.code), cov.duration,
                                                "Coverage analysis completed", cov.stdout, cov.stderr)] else [];
      assert forall k :: 0 <= k < |categories| ==> (categories + extra)[k] == categories[k];
      TestSuite("Unit Tests", categories + extra, elapsed)
  }

  /** s with every '_' replaced by '-'. */
  function Dashed(s: string): (r: string)
    ensures |r| == |s|
    ensures forall k :: 0 <= k < |s| ==> r[k] == if s[k] == '_' then '-' else s[k]
  {
    if s == [] then [] else Dashed(s[..|s| - 1]) + [if s[|s| - 1] == '_' then '-' else s[|s| - 1]]
  }

  /** The command run_integration_tests builds for a suite, as written. */
  function IntegrationCommandAsWritten(suiteName: string, hardwareAvailable: bool): (cmd: seq<string>)
    ensures |cmd| == (if hardwareAvailable then 2 else 3)
    ensures cmd[0] == "./integration_test_main" && cmd[1] == "--" + Dashed(suiteName)
    ensures !hardwareAvailable ==> cmd[2] == "--software-only"
  {
    ["./integration_test_main", "--" + Dashed(suiteName)] + (if hardwareAvailable then [] else ["--software-only"])
  }

  /** The integration runner's long options that take no value, by name. */
  const RUNNER_FLAGS: seq<(string, IntegrationMain.TestOption)> := [
    ("e2e", IntegrationMain.E2e), ("stress", IntegrationMain.Stress), ("all", IntegrationMain.AllSuites),
    ("verbose", IntegrationMain.Verbose), ("stop-on-failure", IntegrationMain.StopOnFailure),
    ("html", IntegrationMain.Html), ("json", IntegrationMain.Json), ("no-html", IntegrationMain.NoHtml),
    ("help", IntegrationMain.Help)
  ]

  /** The runner's flags whose names start with `name` (getopt_long accepts an unambiguous
      abbreviation). */
  function Candidates(name: string, flags: seq<(string, IntegrationMain.TestOption)>): (r: seq<(string, IntegrationMain.TestOption)>)
    ensures forall k :: 0 <= k < |r| ==> r[k] in flags && name <= r[k].0
    ensures forall k :: 0 <= k < |flags| && name <= flags[k].0 ==> flags[k] in r
    ensures (forall k :: 0 <= k < |flags| ==> !(name <= flags[k].0)) ==> r == []
  {
    if flags == [] then []
    else Candidates(name, flags[..|flags| - 1]) + (if name <= flags[|flags| - 1].0 then [flags[|flags| - 1]] else [])
  }

  /** The option of the flag named exactly `name`, if there is one. */
  function Lookup(name: string, flags: seq<(string, IntegrationMain.TestOption)>): (r: Option<IntegrationMain.TestOption>)
    ensures r.Some? ==> exists k :: 0 <= k < |flags| && flags[k] == (name, r.value)
    ensures r.None? <==> forall k :: 0 <= k < |flags| ==> flags[k].0 != name
  {
    if flags == [] then None
    else if flags[0].0 == name then Some(flags[0].1)
    else
      var r := Lookup(name, flags[1..]);
      assert forall k :: 1 <= k < |flags| ==> flags[k] == flags[1..][k - 1];
      r
  }

  /** How getopt_long reads one word addressed to the integration runner: a flag named
      exactly, or the single flag the word abbreviates; anything else is '?'. */
  function RunnerOption(arg: string): IntegrationMain.TestOption
  {
    if |arg| < 2 || arg[..2] != "--" then IntegrationMain.Unknown
    else
      var name := arg[2..];
      match Lookup(name, RUNNER_FLAGS)
      case Some(o) => o
      case None =>
        var c := Candidates(name, RUNNER_FLAGS);
        if |c| == 1 then c[0].1 else IntegrationMain.Unknown
  }

  /** The options the runner receives for a command line. */
  function RunnerOptions(cmd: seq<string>): (r: seq<IntegrationMain.TestOption>)
    requires |cmd| >= 1
    ensures |r| == |cmd| - 1 && forall k :: 0 <= k < |r| ==> r[k] == RunnerOption(cmd[k + 1])
  {
    seq(|cmd| - 1, k requires 0 <= k < |cmd| - 1 => RunnerOption(cmd[k + 1]))
  }

  /** "e2e-tests" and "stress-tests" start no flag name: each is longer than every flag
      name but "stop-on-failure", which differs from both within their length. */
  lemma NoFlagStartsWith()
    ensures forall k :: 0 <= k < |RUNNER_FLAGS| ==> !("e2e-tests" <= RUNNER_FLAGS[k].0)
    ensures forall k :: 0 <= k < |RUNNER_FLAGS| ==> !("stress-tests" <= RUNNER_FLAGS[k].0)
  {
    forall k | 0 <= k < |RUNNER_FLAGS|
      ensures !("e2e-tests" <= RUNNER_FLAGS[k].0) && !("stress-tests" <= RUNNER_FLAGS[k].0)
    {
      var f := RUNNER_FLAGS[k].0;
      if k == 4 {
        assert f[0] == 's' && f[2] == 'o';
      } else {
        assert |f| < 9;
      }
    }
  }

  lemma DashedNames()
    ensures Dashed("e2e_tests") == "e2e-tests" && Dashed("stress_tests") == "stress-tests"
  {
    var e := Dashed("e2e_tests");
    assert forall k :: 0 <= k < |e| ==> e[k] == "e2e-tests"[k];
    var s := Dashed("stress_tests");
    assert forall k :: 0 <= k < |s| ==> s[k] == "stress-tests"[k];
  }

  /** The runner refuses the command as written: "--e2e-tests" and "--stress-tests" name no
      option and abbreviate none, so parsing fails and the runner exits with failure whether
      or not hardware is available. */
  lemma IntegrationCommandRejected(hardwareAvailable: bool)
    ensures IntegrationMain.Parse(IntegrationMain.DEFAULT_OPTIONS,
              RunnerOptions(IntegrationCommandAsWritten("e2e_tests", hardwareAvailable))).0 == -1
    ensures IntegrationMain.Parse(IntegrationMain.DEFAULT_OPTIONS,
              RunnerOptions(IntegrationCommandAsWritten("stress_tests", hardwareAvailable))).0 == -1
  {
    DashedNames();
    NoFlagStartsWith();
    var e := IntegrationCommandAsWritten("e2e_tests", hardwareAvailable);
    assert e[1][2..] == "e2e-tests";
    assert RunnerOptions(e)[0] == IntegrationMain.Unknown;
    var s := IntegrationCommandAsWritten("stress_tests", hardwareAvailable);
    assert s[1][2..] == "stress-tests";
    assert RunnerOptions(s)[0] == IntegrationMain.Unknown;
  }

  /** The command that selects the suite: the runner's own flag for it. The runner has no
      software-only mode, so the hardware setting has no flag to become. */
  function IntegrationCommand(suite: IntegrationMain.Suite): (cmd: seq<string>)
    ensures |cmd| == 2 && cmd[0] == "./integration_test_main"
  {
    ["./integration_test_main", if suite == IntegrationMain.E2ESuite then "--e2e" else "--stress"]
  }

  /** The runner accepts the command and runs exactly the suite it names. */
  lemma IntegrationCommandAccepted(suite: IntegrationMain.Suite)
    ensures var p := IntegrationMain.Parse(IntegrationMain.DEFAULT_OPTIONS, RunnerOptions(IntegrationCommand(suite)));
      p.0 == 0 && IntegrationMain.Selected(p.1, suite)
      && !IntegrationMain.Selected(p.1, if suite == IntegrationMain.E2ESuite then IntegrationMain.StressSuite else IntegrationMain.E2ESuite)
  {
    var cmd := IntegrationCommand(suite);
    if suite == IntegrationMain.E2ESuite {
      assert cmd[1][2..] == "e2e";
      assert RUNNER_FLAGS[0] == ("e2e", IntegrationMain.E2e);
      forall k | 1 <= k < |RUNNER_FLAGS|
        ensures RUNNER_FLAGS[k].0 != "e2e"
      {
        var f := RUNNER_FLAGS[k].0;
        assert |f| != 3 || f[0] != 'e';
      }
      assert RunnerOptions(cmd) == [IntegrationMain.E2e];
    } else {
      assert cmd[1][2..] == "stress";
      assert RUNNER_FLAGS[1] == ("stress", IntegrationMain.Stress);
      forall k | 0 <= k < |RUNNER_FLAGS| && k != 1
        ensures RUNNER_FLAGS[k].0 != "stress"
      {
        assert |RUNNER_FLAGS[k].0| != |"stress"|;
      }
      assert RunnerOptions(cmd) == [IntegrationMain.Stress];
    }
  }

  /** run_integration_tests: a build failure is a suite of one failed test; otherwise the
      end-to-end and stress suites, each passing iff its command exits with 0. */
  function IntegrationTests(exec: seq<string> -> CommandResult, elapsed: string): (s: TestSuite)
    ensures s.name == "Integration Tests"
    ensures exec(["make", "clean", "all"]).code != 0 ==>
      |s.tests| == 1 && s.tests[0].name == "integration_tests_build" && s.tests[0].status == FAIL
    ensures exec(["make", "clean", "all"]).code == 0 ==>
      |s.tests| == 2 && s.tests[0].name == "e2e_tests" && s.tests[1].name == "stress_tests"
      && (s.tests[0].status == PASS <==> exec(IntegrationCommand(IntegrationMain.E2ESuite)).code == 0)
      && (s.tests[1].status == PASS <==> exec(IntegrationCommand(IntegrationMain.StressSuite)).code == 0)
  {
    var build := exec(["make", "clean", "all"]);
    if build.code != 0 then
      TestSuite("Integration Tests", [TestResult("integration_tests_build", FAIL, build.duration,
                                                 "Failed to build integration tests", "", build.stderr)], elapsed)
    else
      var e := exec(IntegrationCommand(IntegrationMain.E2ESuite));
      var st := exec(IntegrationCommand(IntegrationMain.StressSuite));
      TestSuite("Integration Tests", [
        TestResult("e2e_tests", StatusOf(e.code), e.duration, "End-to-end integration tests", e.stdout, e.stderr),
        TestResult("stress_tests", StatusOf(st.code), st.duration, "Stress and reliability tests", st.stdout, st.stderr)
      ], elapsed)
  }

  const SIM_TOOLS: seq<string> := ["vivado", "vsim", "vcs"]

  /** The first simulator on the path, in the script's order of preference. */
  function FindSimulator(onPath: string -> bool): (t: Option<string>)
    ensures t.Some? ==> t.value in SIM_TOOLS && onPath(t.value)
    ensures t.Some? && t.value != SIM_TOOLS[0] ==> !onPath(SIM_TOOLS[0])
    ensures t.Some? && t.value == SIM_TOOLS[2] ==> !onPath(SIM_TOOLS[1])
    ensures t.None? <==> forall k :: 0 <= k < |SIM_TOOLS| ==> !onPath(SIM_TOOLS[k])
  {
    if onPath(SIM_TOOLS[0]) then Some(SIM_TOOLS[0])
    else if onPath(SIM_TOOLS[1]) then Some(SIM_TOOLS[1])
    else if onPath(SIM_TOOLS[2]) then Some(SIM_TOOLS[2])
    else None
  }

  /** The make targets the simulation suite runs. */
  function SimTargets(runFullSim: bool): (targets: seq<(string, string)>)
    ensures |targets| == if runFullSim then 2 else 1
    ensures targets[0].0 == "test-quick"
    ensures targets[|targets| - 1].0 == "test-full" <==> runFullSim
  {
    [("test-quick", "Quick functionality tests")] + (if runFullSim then [("test-full", "Comprehensive simulation tests")] else [])
  }

  /** run_simulation_tests: with no simulator a suite of one skipped test; otherwise one test
      per target, run with that simulator. */
  function SimulationTests(onPath: string -> bool, runFullSim: bool, exec: seq<string> -> CommandResult,
                           elapsed: string): (s: TestSuite)
    ensures s.name == "Simulation Tests"
    ensures FindSimulator(onPath).None? ==>
      |s.tests| == 1 && s.tests[0].name == "simulation_tools_check" && s.tests[0].status == SKIP
    ensures FindSimulator(onPath).Some? ==>
      var targets := SimTargets(runFullSim);
      |s.tests| == |targets|
      && forall k :: 0 <= k < |targets| ==>
           s.tests[k].name == targets[k].0
           && (s.tests[k].status == PASS <==> exec(["make", targets[k].0, "SIM=" + FindSimulator(onPath).value]).code == 0)
  {
    match FindSimulator(onPath)
    case None =>
      TestSuite("Simulation Tests", [TestResult("simulation_tools_check", SKIP, "0.000", "No simulation tools available", "", "")], elapsed)
    case Some(tool) =>
      var targets := SimTargets(runFullSim);
      TestSuite("Simulation Tests", seq(|targets|, k requires 0 <= k < |targets| =>
        var r := exec(["make", targets[k].0, "SIM=" + tool]);
        TestResult(targets[k].0, StatusOf(r.code), r.duration, targets[k].1, r.stdout, r.stderr)), elapsed)
  }

  // ---------------------------------------------------------------------------------------
  // Suite selection

  /** The configuration keys run_all_tests reads; an absent key is None. */
  datatype Config = Config(runUnit: Option<bool>, runStatic: Option<bool>, runIntegration: Option<bool>,
                           runSimulation: Option<bool>, runPerformance: Option<bool>)

  datatype SuiteKind = UnitSuite | StaticSuite | IntegrationSuite | SimulationSuite | PerformanceSuite

  /** dict.get with a default. */
  function Get(v: Option<bool>, default: bool): bool
  {
    if v.Some? then v.value else default
  }

  function Rank(k: SuiteKind): nat
  {
    match k
    case UnitSuite => 0
    case StaticSuite => 1
    case IntegrationSuite => 2
    case SimulationSuite => 3
    case PerformanceSuite => 4
  }

  /** The suites run_all_tests runs, in order. */
  function SelectSuites(c: Config): (r: seq<SuiteKind>)
    ensures UnitSuite in r <==> Get(c.runUnit, true)
    ensures StaticSuite in r <==> Get(c.runStatic, true)
    ensures IntegrationSuite in r <==> Get(c.runIntegration, true)
    ensures SimulationSuite in r <==> Get(c.runSimulation, false)
    ensures PerformanceSuite in r <==> Get(c.runPerformance, false)
    ensures forall i, j :: 0 <= i < j < |r| ==> Rank(r[i]) < Rank(r[j])
  {
    (if Get(c.runUnit, true) then [UnitSuite] else [])
    + (if Get(c.runStatic, true) then [StaticSuite] else [])
    + (if Get(c.runIntegration, true) then [IntegrationSuite] else [])
    + (if Get(c.runSimulation, false) then [SimulationSuite] else [])
    + (if Get(c.runPerformance, false) then [PerformanceSuite] else [])
  }

  /** An empty configuration runs the unit, static-analysis and integration suites. */
  lemma DefaultSelection()
    ensures SelectSuites(Config(None, None, None, None, None)) == [UnitSuite, StaticSuite, IntegrationSuite]
  {
  }

  // ---------------------------------------------------------------------------------------
  // Reports

  /** All tests of all suites, in order. */
  function AllTests(suites: seq<TestSuite>): seq<TestResult>
  {
    if suites == [] then [] else AllTests(suites[..|suites| - 1]) + suites[|suites| - 1].tests
  }

  datatype Summary = Summary(total: nat, passed: nat, failed: nat, skipped: nat)

  /** The report's summary: every test counted once, by status. */
  function Summarize(suites: seq<TestSuite>): Summary
  {
    var all := AllTests(suites);
    Summary(|all|, Count(all, IsPass), Count(all, IsFailed), Count(all, IsSkipped))
  }

  predicate IsOther(t: TestResult) { !IsPass(t) && !IsFailed(t) && !IsSkipped(t) }

  /** Each test falls in one bucket or, with a status outside the four, in none. */
  lemma {:induction false} BucketsPartition(s: seq<TestResult>)
    ensures Count(s, IsPass) + Count(s, IsFailed) + Count(s, IsSkipped) + Count(s, IsOther) == |s|
  {
    if s != [] {
      BucketsPartition(s[..|s| - 1]);
    }
  }

  /** No test failed or erred. */
  predicate NoFailure(ts: seq<TestResult>)
  {
    forall k :: 0 <= k < |ts| ==> !IsFailed(ts[k])
  }

  /** Every test has one of the four statuses. */
  predicate KnownStatuses(ts: seq<TestResult>)
  {
    forall k :: 0 <= k < |ts| ==> !IsOther(ts[k])
  }

  /** The summary's buckets never exceed the total, and fill it when every status is one of
      PASS, FAIL, ERROR and SKIP. The run fails exactly when some test failed or erred. */
  lemma SummaryBuckets(suites: seq<TestSuite>)
    ensures var s := Summarize(suites); s.passed + s.failed + s.skipped <= s.total
    ensures Summarize(suites).failed == 0 <==> NoFailure(AllTests(suites))
    ensures KnownStatuses(AllTests(suites)) ==>
      var s := Summarize(suites); s.passed + s.failed + s.skipped == s.total
  {
    var all := AllTests(suites);
    BucketsPartition(all);
    CountZero(all, IsFailed);
    CountZero(all, IsOther);
  }

  /** A test as the JSON report records it: output and error output cut to 1000 characters. */
  datatype TestRecord = TestRecord(name: string, status: string, duration: string, message: string,
                                   output: string, errorOutput: string)

  datatype SuiteRecord = SuiteRecord(name: string, duration: string, tests: seq<TestRecord>)

  /** generate_reports' result, without the timestamp, configuration and success rate. */
  datatype Report = Report(suites: seq<SuiteRecord>, summary: Summary, totalDuration: string)

  function RecordOf(t: TestResult): (r: TestRecord)
    ensures |r.output| <= OUTPUT_LIMIT && |r.errorOutput| <= OUTPUT_LIMIT
    ensures r.output <= t.output && r.errorOutput <= t.errorOutput
    ensures |t.output| <= OUTPUT_LIMIT ==> r.output == t.output
    ensures |t.errorOutput| <= OUTPUT_LIMIT ==> r.errorOutput == t.errorOutput
    ensures r.name == t.name && r.status == t.status && r.message == t.message
  {
    TestRecord(t.name, t.status, t.duration, t.message,
               Truncate(t.output, OUTPUT_LIMIT), Truncate(t.errorOutput, OUTPUT_LIMIT))
  }

  /** The records of a suite's tests, in order. */
  function TestRecords(ts: seq<TestResult>): (r: seq<TestRecord>)
    ensures |r| == |ts| && forall k :: 0 <= k < |ts| ==> r[k] == RecordOf(ts[k])
  {
    if ts == [] then [] else TestRecords(ts[..|ts| - 1]) + [RecordOf(ts[|ts| - 1])]
  }

  function SuiteRecordOf(s: TestSuite): SuiteRecord
  {
    SuiteRecord(s.name, s.duration, TestRecords(s.tests))
  }

  /** The records of the suites, in order. */
  function RecordsOf(suites: seq<TestSuite>): (r: seq<SuiteRecord>)
    ensures |r| == |suites| && forall k :: 0 <= k < |suites| ==> r[k] == SuiteRecordOf(suites[k])
  {
    if suites == [] then [] else RecordsOf(suites[..|suites| - 1]) + [SuiteRecordOf(suites[|suites| - 1])]
  }

  /** What counting one more test does to the three counters. */
  lemma CountStep(seen: seq<TestResult>, test: TestResult)
    ensures Count(seen + [test], IsPass) == Count(seen, IsPass) + (if IsPass(test) then 1 else 0)
    ensures Count(seen + [test], IsFailed) == Count(seen, IsFailed) + (if IsFailed(test) then 1 else 0)
    ensures Count(seen + [test], IsSkipped) == Count(seen, IsSkipped) + (if IsSkipped(test) then 1 else 0)
  {
    assert (seen + [test])[..|seen|] == seen;
  }

  /** The counters after the tests seen so far: every test, then each bucket by status. */
  predicate Counted(seen: seq<TestResult>, total: nat, passed: nat, failed: nat, skipped: nat)
  {
    total == |seen| && passed == Count(seen, IsPass) && failed == Count(seen, IsFailed)
    && skipped == Count(seen, IsSkipped)
  }

  /** The counting and recording loop of generate_reports. */
  method GenerateReports(results: seq<TestSuite>, totalDuration: string) returns (report: Report)
    ensures report == Report(RecordsOf(results), Summarize(results), totalDuration)
  {
    var total, passed, failed, skipped := 0, 0, 0, 0;
    var suites: seq<SuiteRecord> := [];
    ghost var seen: seq<TestResult> := [];
    for i := 0 to |results|
      invariant seen == AllTests(results[..i])
      invariant Counted(seen, total, passed, failed, skipped)
      invariant suites == RecordsOf(results[..i])
    {
      assert results[..i + 1][..i] == results[..i];
      var suite := results[i];
      var records;
      records, total, passed, failed, skipped := RecordTests(suite.tests, seen, total, passed, failed, skipped);
      seen := seen + suite.tests;
      suites := suites + [SuiteRecord(suite.name, suite.duration, records)];
    }
    assert results[..|results|] == results;
    report := Report(suites, Summary(total, passed, failed, skipped), totalDuration);
  }

  /** The per-test loop of generate_reports over one suite: each test is recorded and
      counted once, by status. */
  method RecordTests(tests: seq<TestResult>, ghost seen: seq<TestResult>,
                     total0: nat, passed0: nat, failed0: nat, skipped0: nat)
    returns (records: seq<TestRecord>, total: nat, passed: nat, failed: nat, skipped: nat)
    requires Counted(seen, total0, passed0, failed0, skipped0)
    ensures records == TestRecords(tests)
    ensures Counted(seen + tests, total, passed, failed, skipped)
  {
    total, passed, failed, skipped := total0, passed0, failed0, skipped0;
    records := [];
    assert seen + tests[..0] == seen;
    for j := 0 to |tests|
      invariant records == TestRecords(tests[..j])
      invariant Counted(seen + tests[..j], total, passed, failed, skipped)
    {
      var test := tests[j];
      assert tests[..j + 1] == tests[..j] + [test];
      assert seen + tests[..j + 1] == (seen + tests[..j]) + [test];
      records := records + [RecordOf(test)];
      CountStep(seen + tests[..j], test);
      total := total + 1;
      if test.status == PASS {
        passed := passed + 1;
      } else if test.status == FAIL || test.status == ERROR {
        failed := failed + 1;
      } else if test.status == SKIP {
        skipped := skipped + 1;
      }
    }
    assert tests[..|tests|] == tests;
  }

  // ---------------------------------------------------------------------------------------
  // JUnit XML

  predicate RecordFailed(t: TestRecord) { FailedStatus(t.status) }
  predicate RecordSkipped(t: TestRecord) { t.status == SKIP }

  /** One <testcase> element. A status other than the four leaves the element open. */
  function TestcaseXml(t: TestRecord): string
  {
    TestcaseOpen(t)
    + if t.status == PASS then "/>\n"
      else if FailedStatus(t.status) then ">\n      " + FailureXml(t) + "\n    </testcase>\n"
      else if t.status == SKIP then ">\n      " + SkippedXml(t) + "\n    </testcase>\n"
      else ""
  }

  function SuiteOpenXml(s: SuiteRecord): string
  {
    "  <testsuite name=\"" + s.name + "\" " + "tests=\"" + NatToString(|s.tests|) + "\" "
    + "failures=\"" + NatToString(Count(s.tests, RecordFailed)) + "\" "
    + "skipped=\"" + NatToString(Count(s.tests, RecordSkipped)) + "\" " + "time=\"" + s.duration + "\">\n"
  }

  function TestcasesXml(ts: seq<TestRecord>): string
  {
    if ts == [] then "" else TestcasesXml(ts[..|ts| - 1]) + TestcaseXml(ts[|ts| - 1])
  }

  function SuiteXml(s: SuiteRecord): string
  {
    SuiteOpenXml(s) + TestcasesXml(s.tests) + "  </testsuite>\n"
  }

  function SuitesXml(ss: seq<SuiteRecord>): string
  {
    if ss == [] then "" else SuitesXml(ss[..|ss| - 1]) + SuiteXml(ss[|ss| - 1])
  }

  function RootOpenXml(r: Report): string
  {
    "<?xml version=\"1.0\" encoding=\"UTF-8\"?>\n"
    + "<testsuites tests=\"" + NatToString(r.summary.total) + "\" "
    + "failures=\"" + NatToString(r.summary.failed) + "\" "
    + "skipped=\"" + NatToString(r.summary.skipped) + "\" " + "time=\"" + r.totalDuration + "\">\n"
  }

  /** The JUnit document for a report. */
  function JunitXml(r: Report): string
  {
    RootOpenXml(r) + SuitesXml(r.suites) + "</testsuites>\n"
  }

  /** generate_junit_xml: builds the document by appending, suite by suite and test by test. */
  method GenerateJunitXml(report: Report) returns (xml: string)
    ensures xml == JunitXml(report)
  {
    xml := RootOpenXml(report);
    var ss := report.suites;
    for i := 0 to |ss|
      invariant xml == RootOpenXml(report) + SuitesXml(ss[..i])
    {
      assert ss[..i + 1][..i] == ss[..i];
      ghost var before := xml;
      xml := xml + SuiteOpenXml(ss[i]);
      xml := AppendTestcases(xml, ss[i].tests);
      xml := xml + "  </testsuite>\n";
      Assoc(before, SuiteOpenXml(ss[i]), TestcasesXml(ss[i].tests));
      Assoc(before, SuiteOpenXml(ss[i]) + TestcasesXml(ss[i].tests), "  </testsuite>\n");
      Assoc(RootOpenXml(report), SuitesXml(ss[..i]), SuiteXml(ss[i]));
    }
    assert ss[..|ss|] == ss;
    xml := xml + "</testsuites>\n";
  }

  /** The testcase loop of generate_junit_xml. */
  method AppendTestcases(prefix: string, tests: seq<TestRecord>) returns (xml: string)
    ensures xml == prefix + TestcasesXml(tests)
  {
    xml := prefix;
    for j := 0 to |tests|
      invariant xml == prefix + TestcasesXml(tests[..j])
    {
      assert tests[..j + 1][..j] == tests[..j];
      Assoc(prefix, TestcasesXml(tests[..j]), TestcaseXml(tests[j]));
      xml := xml + TestcaseXml(tests[j]);
    }
    assert tests[..|tests|] == tests;
  }

  lemma Assoc(a: string, b: string, c: string)
    ensures a + b + c == a + (b + c)
  {
  }

  /** The opening of a <testcase> element, up to its attributes. */
  function TestcaseOpen(t: TestRecord): string
  {
    "    <testcase name=\"" + t.name + "\" time=\"" + t.duration + "\""
  }

  /** The <failure> element of a FAIL or ERROR testcase: the message as attribute, the error
      output as text. */
  function FailureXml(t: TestRecord): string
  {
    "<failure message=\"" + t.message + "\">" + t.errorOutput + "</failure>"
  }

  /** The <skipped> element of a SKIP testcase. */
  function SkippedXml(t: TestRecord): string
  {
    "<skipped message=\"" + t.message + "\"/>"
  }

  /** A testcase of a known status is closed: self-closing for PASS, with a closing tag
      otherwise; for any other status it is left open. */
  lemma TestcaseClosed(t: TestRecord)
    ensures t.status == PASS ==> EndsWith(TestcaseXml(t), "/>\n")
    ensures FailedStatus(t.status) || t.status == SKIP ==> EndsWith(TestcaseXml(t), "    </testcase>\n")
    ensures t.status != PASS && !FailedStatus(t.status) && t.status != SKIP ==>
      !EndsWith(TestcaseXml(t), "/>\n") && !EndsWith(TestcaseXml(t), "</testcase>\n")
  {
    var x := TestcaseXml(t);
    var open := TestcaseOpen(t);
    if t.status == PASS {
      EndsWithConcat(open, "/>\n", "/>\n");
    } else if FailedStatus(t.status) || t.status == SKIP {
      var elem := if FailedStatus(t.status) then FailureXml(t) else SkippedXml(t);
      var close := "\n    </testcase>\n";
      assert close[1..] == "    </testcase>\n";
      assert x == open + (">\n      " + elem) + close;
      EndsWithConcat(open + (">\n      " + elem), close, "    </testcase>\n");
    } else {
      assert x == open + "";
      assert x[|x| - 1] == '"';
    }
  }

  lemma EndsWithConcat(a: string, b: string, suffix: string)
    requires EndsWith(b, suffix)
    ensures EndsWith(a + b, suffix)
  {
    assert (a + b)[|a + b| - |suffix|..] == b[|b| - |suffix|..];
  }

  /** FAIL and ERROR testcases carry the failure element with the message and the error
      output; SKIP testcases carry the skipped element with the message. */
  lemma TestcaseElements(t: TestRecord)
    ensures FailedStatus(t.status) ==> Contains(TestcaseXml(t), FailureXml(t))
    ensures t.status == SKIP ==> Contains(TestcaseXml(t), SkippedXml(t))
  {
    var pre := TestcaseOpen(t) + ">\n      ";
    var post := "\n    </testcase>\n";
    if FailedStatus(t.status) {
      assert TestcaseXml(t) == pre + FailureXml(t) + post;
      ContainsAt(pre, FailureXml(t), post);
    } else if t.status == SKIP {
      assert TestcaseXml(t) == pre + SkippedXml(t) + post;
      ContainsAt(pre, SkippedXml(t), post);
    }
  }

  /** When the attribute texts hold no '<', a PASS or SKIP testcase holds no failure
      element, and a PASS testcase no skipped element either. */
  lemma TestcaseNoStrayElements(t: TestRecord)
    requires NoLt(t.name) && NoLt(t.duration) && NoLt(t.message)
    ensures t.status == PASS || t.status == SKIP ==> !Contains(TestcaseXml(t), "<failure")
    ensures t.status == PASS ==> !Contains(TestcaseXml(t), "<skipped")
  {
    if t.status == PASS {
      PassTags(t, 'f');
      PassTags(t, 's');
      NoTagNoContains(TestcaseXml(t), 'f', "<failure");
      NoTagNoContains(TestcaseXml(t), 's', "<skipped");
    } else if t.status == SKIP {
      SkipTags(t);
      NoTagNoContains(TestcaseXml(t), 'f', "<failure");
    }
  }

  lemma PassTags(t: TestRecord, c: char)
    requires NoLt(t.name) && NoLt(t.duration) && t.status == PASS && c != 't'
    ensures NoTag(TestcaseXml(t), c)
  {
    OpenTags(t, c);
    var end := "/>\n";
    assert NoTag(end, c) by {
      assert forall k :: 0 <= k < |end| ==> end[k] != '<';
    }
    TagsConcat(TestcaseOpen(t), end, c);
  }

  lemma SkipTags(t: TestRecord)
    requires NoLt(t.name) && NoLt(t.duration) && NoLt(t.message) && t.status == SKIP
    ensures NoTag(TestcaseXml(t), 'f')
  {
    var indent := ">\n      ";
    var close := "\n    </testcase>\n";
    assert NoTag(indent, 'f') by {
      assert forall k :: 0 <= k < |indent| ==> indent[k] != '<';
    }
    assert NoTag(close, 'f') by {
      forall k | 0 <= k < |close| && close[k] == '<'
        ensures k + 1 < |close| && close[k + 1] != 'f'
      {
        assert k == 5;
      }
    }
    SkippedTags(t);
    OpenTags(t, 'f');
    TagsConcat(indent, SkippedXml(t), 'f');
    TagsConcat(indent + SkippedXml(t), close, 'f');
    TagsConcat(TestcaseOpen(t), indent + SkippedXml(t) + close, 'f');
  }

  lemma SkippedTags(t: TestRecord)
    requires NoLt(t.message)
    ensures NoTag(SkippedXml(t), 'f')
  {
    var head := "<skipped message=\"";
    var tail := "\"/>";
    assert NoTag(head, 'f') by {
      forall k | 0 <= k < |head| && head[k] == '<'
        ensures k + 1 < |head| && head[k + 1] != 'f'
      {
        assert k == 0;
      }
    }
    assert NoTag(tail, 'f') by {
      assert forall k :: 0 <= k < |tail| ==> tail[k] != '<';
    }
    NoLtTags(t.message, 'f');
    TagsConcat(head, t.message, 'f');
    TagsConcat(head + t.message, tail, 'f');
  }

  /** s occurs in x at index i. */
  predicate OccursAt(x: string, s: string, i: nat)
  {
    i + |s| <= |x| && x[i..i + |s|] == s
  }

  /** s occurs in x. */
  ghost predicate Contains(x: string, s: string)
  {
    exists i: nat :: OccursAt(x, s, i)
  }

  predicate NoLt(s: string)
  {
    forall k :: 0 <= k < |s| ==> s[k] != '<'
  }

  /** No '<' in s is followed by c, and s does not end with '<'. */
  predicate NoTag(s: string, c: char)
  {
    forall k :: 0 <= k < |s| && s[k] == '<' ==> k + 1 < |s| && s[k + 1] != c
  }

  lemma ContainsAt(a: string, s: string, b: string)
    ensures Contains(a + s + b, s)
  {
    assert OccursAt(a + s + b, s, |a|);
  }

  lemma NoLtTags(s: string, c: char)
    requires NoLt(s)
    ensures NoTag(s, c)
  {
  }

  lemma TagsConcat(a: string, b: string, c: char)
    requires NoTag(a, c) && NoTag(b, c)
    ensures NoTag(a + b, c)
  {
    var x := a + b;
    forall k | 0 <= k < |x| && x[k] == '<'
      ensures k + 1 < |x| && x[k + 1] != c
    {
      if k < |a| {
        assert a[k] == '<';
      } else {
        assert b[k - |a|] == '<';
      }
    }
  }

  /** The opening of a testcase has a single '<', followed by 't'. */
  lemma OpenTags(t: TestRecord, c: char)
    requires NoLt(t.name) && NoLt(t.duration) && c != 't'
    ensures NoTag(TestcaseOpen(t), c)
  {
    var head := "    <testcase name=\"";
    assert NoTag(head, c) by {
      forall k | 0 <= k < |head| && head[k] == '<'
        ensures k + 1 < |head| && head[k + 1] != c
      {
        assert k == 4;
      }
    }
    NoLtTags(t.name, c);
    NoLtTags(t.duration, c);
    TagsConcat(head, t.name, c);
    TagsConcat(head + t.name, "\" time=\"", c);
    TagsConcat(head + t.name + "\" time=\"", t.duration, c);
    TagsConcat(head + t.name + "\" time=\"" + t.duration, "\"", c);
  }

  /** A string with no '<' followed by c holds no tag starting "<" + c. */
  lemma NoTagNoContains(x: string, c: char, tag: string)
    requires NoTag(x, c) && |tag| >= 2 && tag[0] == '<' && tag[1] == c
    ensures !Contains(x, tag)
  {
    forall i: nat | i + |tag| <= |x|
      ensures !OccursAt(x, tag, i)
    {
      assert x[i..i + |tag|][0] == x[i] && x[i..i + |tag|][1] == x[i + 1];
    }
  }

  predicate EndsWith(s: string, suffix: string)
  {
    |suffix| <= |s| && s[|s| - |suffix|..] == suffix
  }

  /** The sum over suites of a per-suite count over records. */
  function SumCounts(ss: seq<SuiteRecord>, p: TestRecord -> bool): nat
  {
    if ss == [] then 0 else SumCounts(ss[..|ss| - 1], p) + Count(ss[|ss| - 1].tests, p)
  }

  /** A record keeps its test's status, so it is counted as the test is. */
  lemma {:induction false} RecordCounts(ts: seq<TestResult>)
    ensures Count(TestRecords(ts), RecordFailed) == Count(ts, IsFailed)
    ensures Count(TestRecords(ts), RecordSkipped) == Count(ts, IsSkipped)
    decreases |ts|
  {
    if ts != [] {
      var rs := TestRecords(ts);
      RecordCounts(ts[..|ts| - 1]);
      assert rs[..|rs| - 1] == TestRecords(ts[..|ts| - 1]);
    }
  }

  /** In the JUnit document of a report built from results, the failures and skipped
      attributes of the suites add up to those of the root. */
  lemma {:induction false} SuiteAttributesAddUp(results: seq<TestSuite>)
    ensures SumCounts(RecordsOf(results), RecordFailed) == Summarize(results).failed
    ensures SumCounts(RecordsOf(results), RecordSkipped) == Summarize(results).skipped
    decreases |results|
  {
    if results != [] {
      var init := results[..|results| - 1];
      var last := results[|results| - 1];
      var rs := RecordsOf(results);
      SuiteAttributesAddUp(init);
      assert rs[..|rs| - 1] == RecordsOf(init);
      assert rs[|rs| - 1].tests == TestRecords(last.tests);
      assert SumCounts(rs, RecordFailed) == SumCounts(RecordsOf(init), RecordFailed) + Count(TestRecords(last.tests), RecordFailed);
      assert SumCounts(rs, RecordSkipped) == SumCounts(RecordsOf(init), RecordSkipped) + Count(TestRecords(last.tests), RecordSkipped);
      RecordCounts(last.tests);
      assert AllTests(results) == AllTests(init) + last.tests;
      CountAppend(AllTests(init), last.tests, IsFailed);
      CountAppend(AllTests(init), last.tests, IsSkipped);
    }
  }

  // ---------------------------------------------------------------------------------------
  // The orchestrator

  /** TestOrchestrator: its configuration and the suites collected so far. */
  class Orchestrator {
    var config: Config
    var results: seq<TestSuite>

    constructor (config: Config)
      ensures this.config == config && results == []
    {
      this.config := config;
      results := [];
    }

    /** run_all_tests, sequentially: each selected suite's result is collected unless it
        raised (`run(k)` is None); the run succeeds iff no collected test failed or erred. */
    method RunAllTests(run: SuiteKind -> Option<TestSuite>, totalDuration: string) returns (success: bool, report: Report)
      modifies this`results
      ensures results == old(results) + Collected(SelectSuites(config), run)
      ensures report == Report(RecordsOf(results), Summarize(results), totalDuration)
      ensures success <==> Summarize(results).failed == 0
    {
      Collect(SelectSuites(config), run);
      report := GenerateReports(results, totalDuration);
      success := report.summary.failed == 0;
    }

    /** The suite loop of run_all_tests: kinds are run in order and each result that was
        produced is appended. */
    method Collect(kinds: seq<SuiteKind>, run: SuiteKind -> Option<TestSuite>)
      modifies this`results
      ensures results == old(results) + Collected(kinds, run)
    {
      for i := 0 to |kinds|
        invariant results == old(results) + Collected(kinds[..i], run)
      {
        assert kinds[..i + 1][..i] == kinds[..i];
        var r := run(kinds[i]);
        if r.Some? {
          results := results + [r.value];
        }
      }
      assert kinds[..|kinds|] == kinds;
    }
  }

  /** The suites collected from running the given kinds in order. */
  function Collected(kinds: seq<SuiteKind>, run: SuiteKind -> Option<TestSuite>): seq<TestSuite>
  {
    if kinds == [] then []
    else Collected(kinds[..|kinds| - 1], run)
         + (if run(kinds[|kinds| - 1]).Some? then [run(kinds[|kinds| - 1]).value] else [])
  }
}
