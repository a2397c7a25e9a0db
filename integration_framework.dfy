/**
 * The integration test framework: byte-pattern fill, buffer comparison, the bounded
 * registry of cleanup functions, framework init/cleanup, test contexts, and the counting
 * done while a suite runs. Function pointers are numbered, 0 standing for NULL; what each
 * test returns (or that its context could not be allocated) is supplied by the caller.
 */
module IntegrationFramework {
  import opened Common

  // test_result_t
  const TEST_RESULT_PASS: int := 0
  const TEST_RESULT_FAIL: int := 1
  const TEST_RESULT_TIMEOUT: int := 2
  const TEST_RESULT_SKIP: int := 3
  const TEST_RESULT_ERROR: int := 4

  // Data pattern types
  const PATTERN_ZEROS: int := 0
  const PATTERN_ONES: int := 1
  const PATTERN_RANDOM: int := 2
  const PATTERN_SEQUENCE: int := 3
  const PATTERN_CHECKERBOARD: int := 4

  const MAX_CLEANUP_FUNCTIONS: nat := 16
  const DEFAULT_TEST_TIMEOUT: nat := 30

  // ---------------------------------------------------------------------------------------
  // Test data

  /** The byte a non-random pattern puts at index i. */
  function PatternByte(pattern: int, i: nat): (b: byte)
    ensures pattern == PATTERN_ONES ==> b == 0xFF
    ensures pattern == PATTERN_SEQUENCE ==> b == i % 256
    ensures pattern == PATTERN_CHECKERBOARD ==> b == (if i % 2 == 1 then 0xAA else 0x55)
    ensures pattern != PATTERN_ONES && pattern != PATTERN_SEQUENCE && pattern != PATTERN_CHECKERBOARD ==> b == 0
  {
    if pattern == PATTERN_ZEROS then 0
    else if pattern == PATTERN_ONES then 0xFF
    else if pattern == PATTERN_SEQUENCE then i % 256
    else if pattern == PATTERN_CHECKERBOARD then (if i % 2 == 1 then 0xAA else 0x55)
    else 0
  }

  /** The checkerboard alternates, and the sequence repeats every 256 bytes. */
  lemma PatternShapes(i: nat)
    ensures PatternByte(PATTERN_CHECKERBOARD, i) != PatternByte(PATTERN_CHECKERBOARD, i + 1)
    ensures PatternByte(PATTERN_SEQUENCE, i + 256) == PatternByte(PATTERN_SEQUENCE, i)
  {
    assert (i + 1) % 2 != i % 2;
    assert (i + 256) % 256 == i % 256;
  }

  /** memset(buffer, value, size). */
  method Fill(buffer: array<byte>, size: nat, value: byte)
    requires size <= buffer.Length
    modifies buffer
    ensures forall i :: 0 <= i < size ==> buffer[i] == value
    ensures forall i :: size <= i < buffer.Length ==> buffer[i] == old(buffer[i])
  {
    for i := 0 to size
      invariant forall k :: 0 <= k < i ==> buffer[k] == value
      invariant forall k :: i <= k < buffer.Length ==> buffer[k] == old(buffer[k])
    {
      buffer[i] := value;
    }
  }

  /** initialize_test_data. `noise` is the stream of `rand() & 0xFF` values the random
      pattern draws. */
  method InitializeTestData(buffer: array?<byte>, size: u64, pattern: int, noise: seq<byte>)
    requires buffer != null ==> size <= buffer.Length
    requires buffer != null && pattern == PATTERN_RANDOM ==> size <= |noise|
    modifies buffer
    ensures buffer != null && size > 0 ==>
      forall i :: 0 <= i < size ==>
        buffer[i] == if pattern == PATTERN_RANDOM then noise[i] else PatternByte(pattern, i)
    ensures buffer != null ==> forall i :: size <= i < buffer.Length ==> buffer[i] == old(buffer[i])
  {
    if buffer == null || size == 0 {
      return;
    }
    if pattern == PATTERN_ZEROS {
      Fill(buffer, size, 0);
    } else if pattern == PATTERN_ONES {
      Fill(buffer, size, 0xFF);
    } else if pattern == PATTERN_RANDOM {
      for i := 0 to size
        invariant forall k :: 0 <= k < i ==> buffer[k] == noise[k]
        invariant forall k :: i <= k < buffer.Length ==> buffer[k] == old(buffer[k])
      {
        buffer[i] := noise[i];
      }
    } else if pattern == PATTERN_SEQUENCE {
      for i := 0 to size
        invariant forall k :: 0 <= k < i ==> buffer[k] == PatternByte(PATTERN_SEQUENCE, k)
        invariant forall k :: i <= k < buffer.Length ==> buffer[k] == old(buffer[k])
      {
        buffer[i] := i % 256;
      }
    } else if pattern == PATTERN_CHECKERBOARD {
      for i := 0 to size
        invariant forall k :: 0 <= k < i ==> buffer[k] == PatternByte(PATTERN_CHECKERBOARD, k)
        invariant forall k :: i <= k < buffer.Length ==> buffer[k] == old(buffer[k])
      {
        buffer[i] := if i % 2 == 1 then 0xAA else 0x55;
      }
    } else {
      Fill(buffer, size, 0);
    }
  }

  /** compare_buffers: memcmp of the first `size` bytes is 0. */
  function CompareBuffers(b1: seq<byte>, b2: seq<byte>, size: nat): (equal: bool)
    requires size <= |b1| && size <= |b2|
    ensures equal <==> forall i :: 0 <= i < size ==> b1[i] == b2[i]
  {
    b1[..size] == b2[..size]
  }

  /** Comparing a buffer filled with a pattern against another filled with the same
      pattern succeeds: the fill is deterministic. */
  lemma SamePatternCompares(b1: seq<byte>, b2: seq<byte>, size: nat, pattern: int)
    requires size <= |b1| && size <= |b2| && pattern != PATTERN_RANDOM
    requires forall i :: 0 <= i < size ==> b1[i] == PatternByte(pattern, i)
    requires forall i :: 0 <= i < size ==> b2[i] == PatternByte(pattern, i)
    ensures CompareBuffers(b1, b2, size)
  {
  }

  // ---------------------------------------------------------------------------------------
  // Contexts

  /** The fields of test_config_t the framework reads. */
  datatype TestConfig = TestConfig(name: string, category: int, severity: int, timeoutSeconds: u32,
                                   iterations: u32, dataSizeBytes: u32)

  /** test_context_t without its timing and floating-point metrics. */
  class TestContext {
    var config: TestConfig
    var result: int
    var isRunning: bool
    var operationsCount: u64
    var errorsCount: u64
    var testDataSize: nat

    constructor (config: TestConfig)
      ensures this.config == config && result == TEST_RESULT_PASS && !isRunning
      ensures operationsCount == 0 && errorsCount == 0 && testDataSize == 0
    {
      this.config := config;
      result := TEST_RESULT_PASS;
      isRunning := false;
      operationsCount := 0;
      errorsCount := 0;
      testDataSize := 0;
    }
  }

  /** create_test_context: NULL for a NULL config or a failed calloc (`allocOk` false). */
  method CreateTestContext(config: Option<TestConfig>, allocOk: bool) returns (ctx: TestContext?)
    ensures (ctx != null) == (config.Some? && allocOk)
    ensures ctx != null ==>
      fresh(ctx) && ctx.config == config.value && ctx.result == TEST_RESULT_PASS && !ctx.isRunning
      && ctx.operationsCount == 0 && ctx.errorsCount == 0 && ctx.testDataSize == 0
  {
    if config.None? || !allocOk {
      return null;
    }
    ctx := new TestContext(config.value);
  }

  /** update_performance_metrics: the 64-bit operation counter grows by `ops`, wrapping. */
  method UpdatePerformanceMetrics(ctx: TestContext?, ops: u64)
    modifies ctx
    ensures ctx != null ==>
      ctx.operationsCount == (old(ctx.operationsCount) + ops) % TWO_64
      && ctx.config == old(ctx.config) && ctx.result == old(ctx.result) && ctx.isRunning == old(ctx.isRunning)
      && ctx.errorsCount == old(ctx.errorsCount) && ctx.testDataSize == old(ctx.testDataSize)
  {
    if ctx == null {
      return;
    }
    ctx.operationsCount := (ctx.operationsCount + ops) % TWO_64;
  }

  // ---------------------------------------------------------------------------------------
  // Suite counting

  /** What happened to one test of a suite: its context could not be created, or it ran
      and returned a test_result_t value. */
  datatype TestOutcome = ContextFailed | Ran(result: int)

  predicate IsFailure(o: TestOutcome)
  {
    o.Ran? && (o.result == TEST_RESULT_FAIL || o.result == TEST_RESULT_TIMEOUT || o.result == TEST_RESULT_ERROR)
  }

  /** A suite's passed/failed/skipped counters. */
  datatype Tally = Tally(passed: nat, failed: nat, skipped: nat)

  /** The counters after one more outcome (the switch on the result in the suite loop). */
  function TallyStep(t: Tally, o: TestOutcome): Tally
  {
    if !o.Ran? then t
    else if o.result == TEST_RESULT_PASS then t.(passed := t.passed + 1)
    else if IsFailure(o) then t.(failed := t.failed + 1)
    else if o.result == TEST_RESULT_SKIP then t.(skipped := t.skipped + 1)
    else t
  }

  /** The suite counters after a run of outcomes, from zero. */
  function SuiteTally(outs: seq<TestOutcome>): Tally
  {
    if outs == [] then Tally(0, 0, 0) else TallyStep(SuiteTally(outs[..|outs| - 1]), outs[|outs| - 1])
  }

  /** test_statistics_t counters. */
  datatype Stats = Stats(total: nat, passed: nat, failed: nat, skipped: nat, timeout: nat)

  const ZERO_STATS: Stats := Stats(0, 0, 0, 0, 0)

  /** The global statistics after one more executed test. */
  function StatsStep(s: Stats, o: TestOutcome): Stats
  {
    if !o.Ran? then s
    else
      var t := s.(total := s.total + 1);
      if o.result == TEST_RESULT_PASS then t.(passed := t.passed + 1)
      else if o.result == TEST_RESULT_FAIL then t.(failed := t.failed + 1)
      else if o.result == TEST_RESULT_TIMEOUT then t.(timeout := t.timeout + 1)
      else if o.result == TEST_RESULT_SKIP then t.(skipped := t.skipped + 1)
      else t
  }

  function GlobalStats(s: Stats, outs: seq<TestOutcome>): Stats
  {
    if outs == [] then s else StatsStep(GlobalStats(s, outs[..|outs| - 1]), outs[|outs| - 1])
  }

  function Ran(o: TestOutcome): bool { o.Ran? }
  function RanWith(r: int): TestOutcome -> bool { (o: TestOutcome) => o.Ran? && o.result == r }

  /** Suite counters count each test that ran once, by result; a context that could not be
      created, or a result outside the enum, counts nowhere. */
  lemma {:induction false} SuiteTallyCounts(outs: seq<TestOutcome>)
    ensures SuiteTally(outs).passed == Count(outs, RanWith(TEST_RESULT_PASS))
    ensures SuiteTally(outs).skipped == Count(outs, RanWith(TEST_RESULT_SKIP))
    ensures SuiteTally(outs).failed == Count(outs, IsFailure)
    ensures SuiteTally(outs).failed == 0 <==> forall i :: 0 <= i < |outs| ==> !IsFailure(outs[i])
  {
    if outs != [] {
      var init := outs[..|outs| - 1];
      SuiteTallyCounts(init);
      if SuiteTally(outs).failed == 0 {
        assert forall i :: 0 <= i < |init| ==> init[i] == outs[i];
      }
    }
  }

  /** Every executed test adds one to total_tests; ERROR (and any value outside the enum)
      is the part of the total that no bucket counts. */
  lemma {:induction false} GlobalStatsCounts(s: Stats, outs: seq<TestOutcome>)
    ensures var g := GlobalStats(s, outs);
      g.total == s.total + Count(outs, Ran)
      && g.passed == s.passed + Count(outs, RanWith(TEST_RESULT_PASS))
      && g.failed == s.failed + Count(outs, RanWith(TEST_RESULT_FAIL))
      && g.timeout == s.timeout + Count(outs, RanWith(TEST_RESULT_TIMEOUT))
      && g.skipped == s.skipped + Count(outs, RanWith(TEST_RESULT_SKIP))
  {
    if outs != [] {
      GlobalStatsCounts(s, outs[..|outs| - 1]);
    }
  }

  /** The prefix of outs up to and including the first failure, or None. */
  function FirstFailure(outs: seq<TestOutcome>): (k: Option<nat>)
    ensures k.Some? ==>
      k.value < |outs| && IsFailure(outs[k.value]) && forall i :: 0 <= i < k.value ==> !IsFailure(outs[i])
    ensures k.None? ==> forall i :: 0 <= i < |outs| ==> !IsFailure(outs[i])
  {
    if outs == [] then None
    else if IsFailure(outs[0]) then Some(0)
    else match FirstFailure(outs[1..])
      case None => None
      case Some(k) => Some(k + 1)
  }

  /** test_suite_t: NULL tests/configs arrays are `hasTests`/`hasConfigs` false. */
  class TestSuite {
    var name: string
    var hasTests: bool
    var hasConfigs: bool
    var testCount: nat
    var testsPassed: nat
    var testsFailed: nat
    var testsSkipped: nat

    constructor (name: string, testCount: nat)
      ensures this.name == name && this.testCount == testCount && hasTests && hasConfigs
      ensures testsPassed == 0 && testsFailed == 0 && testsSkipped == 0
    {
      this.name := name;
      this.testCount := testCount;
      hasTests := true;
      hasConfigs := true;
      testsPassed := 0;
      testsFailed := 0;
      testsSkipped := 0;
    }

    function Counters(): Tally
      reads this
    {
      Tally(testsPassed, testsFailed, testsSkipped)
    }
  }

  /** The elements of s that are not NULL, in order. */
  function NonNull(s: seq<nat>): (r: seq<nat>)
    ensures |r| <= |s|
    ensures forall k :: 0 <= k < |r| ==> r[k] != 0
    ensures forall x :: x != 0 ==> (x in r <==> x in s)
    ensures (forall k :: 0 <= k < |s| ==> s[k] != 0) ==> r == s
  {
    if s == [] then [] else NonNull(s[..|s| - 1]) + (if s[|s| - 1] != 0 then [s[|s| - 1]] else [])
  }

  /** The framework's globals: the initialised flag, g_test_stats, g_stop_on_first_failure
      and the 16-entry cleanup registry. `invoked` records the cleanup functions called. */
  class Framework {
    var initialized: bool
    var stats: Stats
    var stopOnFirstFailure: bool
    var cleanupFunctions: array<nat>
    var cleanupCount: nat
    var invoked: seq<nat>

    ghost predicate Valid()
      reads this
    {
      cleanupFunctions.Length == MAX_CLEANUP_FUNCTIONS && cleanupCount <= MAX_CLEANUP_FUNCTIONS
    }

    /** The static initial state: nothing initialised, zero statistics, an empty registry. */
    constructor ()
      ensures Valid() && fresh(cleanupFunctions)
      ensures !initialized && stats == ZERO_STATS && !stopOnFirstFailure && cleanupCount == 0 && invoked == []
      ensures forall k :: 0 <= k < MAX_CLEANUP_FUNCTIONS ==> cleanupFunctions[k] == 0
    {
      initialized := false;
      stats := ZERO_STATS;
      stopOnFirstFailure := false;
      cleanupFunctions := new nat[MAX_CLEANUP_FUNCTIONS](_ => 0);
      cleanupCount := 0;
      invoked := [];
    }

    /** integration_test_init: idempotent; statistics are zeroed only by the first call. */
    method Init() returns (r: int)
      requires Valid()
      modifies this`initialized, this`stats
      ensures Valid() && r == 0 && initialized
      ensures stats == if old(initialized) then old(stats) else ZERO_STATS
    {
      if initialized {
        return 0;
      }
      stats := ZERO_STATS;
      initialized := true;
      r := 0;
    }

    /** register_cleanup_function: appended iff the registry has room and f is not NULL. */
    method RegisterCleanupFunction(f: nat)
      requires Valid()
      modifies this`cleanupCount, cleanupFunctions
      ensures Valid()
      ensures old(cleanupCount) < MAX_CLEANUP_FUNCTIONS && f != 0 ==>
        cleanupCount == old(cleanupCount) + 1 && cleanupFunctions[..] == old(cleanupFunctions[..])[old(cleanupCount) := f]
      ensures !(old(cleanupCount) < MAX_CLEANUP_FUNCTIONS && f != 0) ==>
        cleanupCount == old(cleanupCount) && cleanupFunctions[..] == old(cleanupFunctions[..])
    {
      if cleanupCount < MAX_CLEANUP_FUNCTIONS && f != 0 {
        cleanupFunctions[cleanupCount] := f;
        cleanupCount := cleanupCount + 1;
      }
    }

    /** integration_test_cleanup: nothing when not initialised; otherwise every registered,
        non-NULL function is called in registration order and the flag cleared. The count
        of registered functions is kept. */
    method Cleanup()
      requires Valid()
      modifies this`initialized, this`invoked
      ensures Valid()
      ensures !old(initialized) ==> !initialized && invoked == old(invoked)
      ensures old(initialized) ==>
        !initialized && invoked == old(invoked) + NonNull(cleanupFunctions[..cleanupCount])
    {
      if !initialized {
        return;
      }
      var i := 0;
      while i < cleanupCount
        invariant 0 <= i <= cleanupCount
        invariant invoked == old(invoked) + NonNull(cleanupFunctions[..i])
      {
        assert cleanupFunctions[..i + 1][..i] == cleanupFunctions[..i];
        if cleanupFunctions[i] != 0 {
          invoked := invoked + [cleanupFunctions[i]];
        }
        i := i + 1;
      }
      assert cleanupFunctions[..cleanupCount] == cleanupFunctions[..i];
      initialized := false;
    }

    /** execute_test_suite. `outcomes[i]` is what happened to test i. */
    method ExecuteTestSuite(suite: TestSuite?, outcomes: seq<TestOutcome>) returns (r: int)
      requires Valid()
      requires suite != null && suite.hasTests && suite.hasConfigs ==> |outcomes| == suite.testCount
      modifies this`stats, suite
      ensures Valid()
      ensures suite == null || !suite.hasTests || !suite.hasConfigs ==>
        r == -1 && stats == old(stats) && (suite != null ==> suite.Counters() == old(suite.Counters()))
      ensures suite != null && suite.hasTests && suite.hasConfigs ==>
        suite.name == old(suite.name) && suite.testCount == old(suite.testCount)
        && suite.hasTests && suite.hasConfigs
        && var stop := if stopOnFirstFailure then FirstFailure(outcomes) else None;
        if stop.Some? then
          r == -1 && suite.Counters() == SuiteTally(outcomes[..stop.value + 1])
          && stats == GlobalStats(old(stats), outcomes[..stop.value])
        else
          suite.Counters() == SuiteTally(outcomes) && stats == GlobalStats(old(stats), outcomes)
          && r == (if suite.testsFailed == 0 then 0 else -1)
    {
      if suite == null || !suite.hasTests || !suite.hasConfigs {
        return -1;
      }
      suite.testsPassed, suite.testsFailed, suite.testsSkipped := 0, 0, 0;
      var i := 0;
      while i < suite.testCount
        invariant 0 <= i <= suite.testCount == |outcomes|
        invariant suite.hasTests && suite.hasConfigs
        invariant suite.name == old(suite.name) && suite.testCount == old(suite.testCount)
        invariant suite.Counters() == SuiteTally(outcomes[..i])
        invariant stats == GlobalStats(old(stats), outcomes[..i])
        invariant stopOnFirstFailure ==> forall k :: 0 <= k < i ==> !IsFailure(outcomes[k])
      {
        assert outcomes[..i + 1][..i] == outcomes[..i];
        var o := outcomes[i];
        if o.ContextFailed? {
          i := i + 1;
          continue;
        }
        var result := o.result;
        if result == TEST_RESULT_PASS {
          suite.testsPassed := suite.testsPassed + 1;
        } else if result == TEST_RESULT_FAIL || result == TEST_RESULT_TIMEOUT || result == TEST_RESULT_ERROR {
          suite.testsFailed := suite.testsFailed + 1;
          if stopOnFirstFailure {
            assert FirstFailure(outcomes) == Some(i) by {
              FirstFailureAt(outcomes, i);
            }
            return -1;
          }
        } else if result == TEST_RESULT_SKIP {
          suite.testsSkipped := suite.testsSkipped + 1;
        }
        stats := stats.(total := stats.total + 1);
        if result == TEST_RESULT_PASS {
          stats := stats.(passed := stats.passed + 1);
        } else if result == TEST_RESULT_FAIL {
          stats := stats.(failed := stats.failed + 1);
        } else if result == TEST_RESULT_TIMEOUT {
          stats := stats.(timeout := stats.timeout + 1);
        } else if result == TEST_RESULT_SKIP {
          stats := stats.(skipped := stats.skipped + 1);
        }
        i := i + 1;
      }
      assert outcomes[..i] == outcomes;
      if stopOnFirstFailure {
        FirstFailureNone(outcomes);
      }
      r := if suite.testsFailed == 0 then 0 else -1;
    }
  }

  /** A failure with none before it is the first failure. */
  lemma {:induction false} FirstFailureAt(outs: seq<TestOutcome>, i: nat)
    requires i < |outs| && IsFailure(outs[i]) && forall k :: 0 <= k < i ==> !IsFailure(outs[k])
    ensures FirstFailure(outs) == Some(i)
  {
    if i > 0 {
      FirstFailureAt(outs[1..], i - 1);
    }
  }

  lemma FirstFailureNone(outs: seq<TestOutcome>)
    requires forall k :: 0 <= k < |outs| ==> !IsFailure(outs[k])
    ensures FirstFailure(outs) == None
  {
  }

  /** Without stop-on-first-failure a suite passes exactly when no test failed, timed out
      or erred; a skipped test or a missing context does not fail it. */
  lemma SuitePassesIffNoFailure(outs: seq<TestOutcome>)
    ensures SuiteTally(outs).failed == 0 <==> FirstFailure(outs) == None
  {
    SuiteTallyCounts(outs);
  }
}
