/**
 * The integration test runner: the folding of its command-line options into the global
 * options record (with the fix-up that selects every suite when none was named), and the
 * choice and verdict of the suites it runs. getopt_long is replaced by the list of options
 * it yields; whether each suite could be created and what executing it returned are
 * parameters.
 */
module IntegrationMain {
  import opened Common

  const DEFAULT_TEST_TIMEOUT: int := 30
  const PATH_CAPACITY: nat := 256

  /** test_config_options_t. */
  datatype TestOptions = TestOptions(
    runE2e: bool, runStress: bool, runAll: bool, verbose: bool, stopOnFailure: bool,
    html: bool, json: bool, outputDirectory: string, logFile: string, timeout: int, help: bool)

  /** The initial value of g_config. */
  const DEFAULT_OPTIONS: TestOptions :=
    TestOptions(false, false, true, false, false, true, false, "./test_results", "", DEFAULT_TEST_TIMEOUT, false)

  /** One option as getopt_long returns it; `Timeout` carries what atoi made of its
      argument, and `Unknown` is '?' as well as any unhandled code. */
  datatype TestOption =
    | E2e | Stress | AllSuites | Verbose | StopOnFailure | Timeout(seconds: int)
    | Output(dir: string) | Log(file: string) | Html | Json | NoHtml | Help | Unknown

  /** The option ends parsing: help, an unknown option, or a timeout that is not positive. */
  predicate Stops(o: TestOption)
  {
    o.Help? || o.Unknown? || (o.Timeout? && o.seconds <= 0)
  }

  /** The effect of one option. A timeout is stored before it is checked. */
  function ApplyOption(c: TestOptions, o: TestOption): TestOptions
    requires !o.Help? && !o.Unknown?
  {
    match o
    case E2e => c.(runE2e := true, runAll := false)
    case Stress => c.(runStress := true, runAll := false)
    case AllSuites => c.(runAll := true)
    case Verbose => c.(verbose := true)
    case StopOnFailure => c.(stopOnFailure := true)
    case Timeout(n) => c.(timeout := n)
    case Output(dir) => c.(outputDirectory := Truncate(dir, PATH_CAPACITY - 1))
    case Log(file) => c.(logFile := Truncate(file, PATH_CAPACITY - 1))
    case Html => c.(html := true)
    case Json => c.(json := true)
    case NoHtml => c.(html := false)
  }

  /** The step after the option loop: with neither suite named, all suites run. */
  function FixUp(c: TestOptions): TestOptions
  {
    if !c.runE2e && !c.runStress then c.(runAll := true) else c
  }

  /** parse_command_line as a fold. */
  function Parse(c: TestOptions, args: seq<TestOption>): (int, TestOptions)
    decreases |args|
  {
    if args == [] then (0, FixUp(c))
    else if args[0].Help? then (0, c.(help := true))
    else if args[0].Unknown? then (-1, c)
    else if args[0].Timeout? && args[0].seconds <= 0 then (-1, ApplyOption(c, args[0]))
    else Parse(ApplyOption(c, args[0]), args[1..])
  }

  predicate Selected(c: TestOptions, s: Suite)
  {
    c.runAll || (if s == E2ESuite then c.runE2e else c.runStress)
  }

  /** A successful parse that is not a help request always selects some suite. */
  lemma {:induction false} SomeSuiteSelected(c: TestOptions, args: seq<TestOption>)
    requires forall k :: 0 <= k < |args| ==> !Stops(args[k])
    ensures Parse(c, args).0 == 0
    ensures Selected(Parse(c, args).1, E2ESuite) || Selected(Parse(c, args).1, StressSuite)
    decreases |args|
  {
    if args != [] {
      SomeSuiteSelected(ApplyOption(c, args[0]), args[1..]);
    }
  }

  /** The suite flags accumulate, so a named suite is selected after parsing. */
  lemma {:induction false} NamedSuiteSelected(c: TestOptions, args: seq<TestOption>)
    requires forall k :: 0 <= k < |args| ==> !Stops(args[k])
    ensures Parse(c, args).1.runE2e <==> c.runE2e || E2e in args
    ensures Parse(c, args).1.runStress <==> c.runStress || Stress in args
    ensures E2e in args ==> Selected(Parse(c, args).1, E2ESuite)
    ensures Stress in args ==> Selected(Parse(c, args).1, StressSuite)
    decreases |args|
  {
    if args != [] {
      ApplyKeeps(c, args[0]);
      NamedSuiteSelected(ApplyOption(c, args[0]), args[1..]);
      assert args == [args[0]] + args[1..];
    }
  }

  /** What one option does to the suite flags and the stored paths. */
  lemma ApplyKeeps(c: TestOptions, o: TestOption)
    requires !o.Help? && !o.Unknown?
    ensures ApplyOption(c, o).runE2e == (c.runE2e || o == E2e)
    ensures ApplyOption(c, o).runStress == (c.runStress || o == Stress)
    ensures |c.outputDirectory| < PATH_CAPACITY ==> |ApplyOption(c, o).outputDirectory| < PATH_CAPACITY
    ensures |c.logFile| < PATH_CAPACITY ==> |ApplyOption(c, o).logFile| < PATH_CAPACITY
  {
    match o
    case E2e =>
    case Stress =>
    case AllSuites =>
    case Verbose =>
    case StopOnFailure =>
    case Timeout(_) =>
    case Output(_) =>
    case Log(_) =>
    case Html =>
    case Json =>
    case NoHtml =>
  }

  /** -e alone runs the end-to-end suite and not the stress suite. */
  lemma E2eAlone()
    ensures var c := Parse(DEFAULT_OPTIONS, [E2e]).1;
      Selected(c, E2ESuite) && !Selected(c, StressSuite)
  {
  }

  /** The first stopping option decides the result: -h gives 0 with help set, anything else
      gives -1. Options after it are not looked at. */
  lemma {:induction false} FirstStopDecides(c: TestOptions, args: seq<TestOption>, h: nat)
    requires h < |args| && Stops(args[h]) && forall k :: 0 <= k < h ==> !Stops(args[k])
    ensures Parse(c, args) == Parse(c, args[..h + 1])
    ensures Parse(c, args).0 == (if args[h].Help? then 0 else -1)
    ensures args[h].Help? ==> Parse(c, args).1.help
    decreases |args|
  {
    if h > 0 {
      FirstStopDecides(ApplyOption(c, args[0]), args[1..], h - 1);
      assert args[1..][..h] == args[..h + 1][1..];
    }
  }

  /** The stored paths always fit their 256-byte buffers with the terminating NUL. */
  lemma {:induction false} PathsFit(c: TestOptions, args: seq<TestOption>)
    requires |c.outputDirectory| < PATH_CAPACITY && |c.logFile| < PATH_CAPACITY
    ensures |Parse(c, args).1.outputDirectory| < PATH_CAPACITY && |Parse(c, args).1.logFile| < PATH_CAPACITY
    decreases |args|
  {
    if args != [] && !args[0].Help? && !args[0].Unknown? {
      ApplyKeeps(c, args[0]);
      if !(args[0].Timeout? && args[0].seconds <= 0) {
        PathsFit(ApplyOption(c, args[0]), args[1..]);
      }
    }
  }

  // ---------------------------------------------------------------------------------------
  // Suites

  datatype Suite = E2ESuite | StressSuite

  /** What became of a suite: it could not be created, or execute_test_suite returned. */
  datatype SuiteOutcome = NotCreated | Executed(result: int)

  predicate Fails(o: SuiteOutcome)
  {
    o.NotCreated? || o.result != 0
  }

  /** With stop-on-failure, a failing execution of the end-to-end suite returns at once; a
      suite that could not be created does not stop the run. */
  predicate StopsAfterE2e(c: TestOptions, e2e: SuiteOutcome)
  {
    Selected(c, E2ESuite) && e2e.Executed? && e2e.result != 0 && c.stopOnFailure
  }

  /** The suites executed, in order. */
  function SuitesRun(c: TestOptions, e2e: SuiteOutcome, stress: SuiteOutcome): (run: seq<Suite>)
    ensures E2ESuite in run <==> Selected(c, E2ESuite) && e2e.Executed?
    ensures StressSuite in run <==> Selected(c, StressSuite) && !StopsAfterE2e(c, e2e) && stress.Executed?
    ensures |run| <= 2
  {
    (if Selected(c, E2ESuite) && e2e.Executed? then [E2ESuite] else [])
    + (if Selected(c, StressSuite) && !StopsAfterE2e(c, e2e) && stress.Executed? then [StressSuite] else [])
  }

  /** The overall result of run_test_suites. */
  function Verdict(c: TestOptions, e2e: SuiteOutcome, stress: SuiteOutcome): (r: int)
    ensures r == 0 || r == -1
    ensures r == 0 <==>
      (Selected(c, E2ESuite) ==> e2e == Executed(0))
      && (Selected(c, StressSuite) && !StopsAfterE2e(c, e2e) ==> stress == Executed(0))
  {
    if (Selected(c, E2ESuite) && Fails(e2e))
       || (Selected(c, StressSuite) && !StopsAfterE2e(c, e2e) && Fails(stress)) then -1
    else 0
  }

  /** Stop-on-failure skips work but never changes the verdict: every selected suite must
      be created and pass either way. */
  lemma StopKeepsVerdict(c: TestOptions, e2e: SuiteOutcome, stress: SuiteOutcome)
    ensures Verdict(c.(stopOnFailure := true), e2e, stress) == Verdict(c.(stopOnFailure := false), e2e, stress)
    ensures Verdict(c, e2e, stress) == 0 <==>
      (Selected(c, E2ESuite) ==> e2e == Executed(0)) && (Selected(c, StressSuite) ==> stress == Executed(0))
  {
  }

  /** g_config, the runner's global options. */
  class Runner {
    var options: TestOptions

    constructor ()
      ensures options == DEFAULT_OPTIONS
    {
      options := DEFAULT_OPTIONS;
    }

    /** parse_command_line: folds the options into g_config in order, then applies the
        fix-up unless it returned early. */
    method ParseCommandLine(args: seq<TestOption>) returns (r: int)
      modifies this
      ensures (r, options) == Parse(old(options), args)
    {
      var i := 0;
      while i < |args|
        invariant 0 <= i <= |args|
        invariant Parse(old(options), args) == Parse(options, args[i..])
      {
        assert args[i..][1..] == args[i + 1..];
        var o := args[i];
        if o.Help? {
          options := options.(help := true);
          return 0;
        } else if o.Unknown? {
          return -1;
        }
        options := ApplyOption(options, o);
        if o.Timeout? && options.timeout <= 0 {
          return -1;
        }
        i := i + 1;
      }
      if !options.runE2e && !options.runStress {
        options := options.(runAll := true);
      }
      r := 0;
    }

    /** run_test_suites: the end-to-end suite, then the stress suite, each when selected. */
    method RunTestSuites(e2e: SuiteOutcome, stress: SuiteOutcome) returns (r: int, run: seq<Suite>)
      ensures run == SuitesRun(options, e2e, stress)
      ensures r == Verdict(options, e2e, stress)
    {
      r, run := 0, [];
      if options.runAll || options.runE2e {
        if e2e.Executed? {
          run := run + [E2ESuite];
          if e2e.result != 0 {
            r := -1;
            if options.stopOnFailure {
              return;
            }
          }
        } else {
          r := -1;
        }
      }
      if options.runAll || options.runStress {
        if stress.Executed? {
          run := run + [StressSuite];
          if stress.result != 0 {
            r := -1;
            if options.stopOnFailure {
              return;
            }
          }
        } else {
          r := -1;
        }
      }
    }
  }
}
