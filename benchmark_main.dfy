/**
 * The benchmark runner: its table of sixteen benchmarks, the size-name parser, the folding
 * of command-line options into the global options record, the selection rule, and the loop
 * that runs the selected benchmarks and counts their results. getopt_long is replaced by
 * the list of options it yields; what each benchmark function returns is a parameter.
 */
module BenchmarkMain {
  import opened Common

  /** The benchmark categories the runner's table uses. */
  datatype Category = Throughput | Latency | Scalability | PowerEfficiency | MemoryBandwidth

  /** The sizes the runner's option accepts. */
  datatype SizeChoice = Small | Medium | Large | XLarge

  /** benchmark_definition_t; the benchmark function is the definition's position in the table. */
  datatype Definition = Definition(name: string, description: string, category: Category,
                                   defaultSize: SizeChoice, defaultIterations: u32, defaultWarmup: u32,
                                   requiresPower: bool)

  /** g_benchmark_definitions. */
  const DEFINITIONS: seq<Definition> := [
    Definition("matmul_throughput", "Matrix multiplication throughput", Throughput, Medium, 100, 10, false),
    Definition("conv2d_throughput", "2D convolution throughput", Throughput, Medium, 50, 5, false),
    Definition("elementwise_throughput", "Element-wise operations throughput", Throughput, Medium, 100, 10, false),
    Definition("memory_bandwidth", "Memory bandwidth", MemoryBandwidth, Medium, 50, 5, false),
    Definition("single_op_latency", "Single operation latency", Latency, Small, 1000, 100, false),
    Definition("batch_op_latency", "Batch operation latency", Latency, Medium, 100, 10, false),
    Definition("memory_access_latency", "Memory access latency", Latency, Small, 500, 50, false),
    Definition("context_switch_latency", "Context switch latency", Latency, Small, 200, 20, false),
    Definition("multithreaded_throughput", "Multi-threaded throughput scaling", Scalability, Medium, 400, 20, false),
    Definition("data_size_scaling", "Data size scaling analysis", Scalability, Large, 50, 5, false),
    Definition("concurrent_mixed_workload", "Concurrent mixed workload", Scalability, Medium, 200, 10, false),
    Definition("load_balancing", "Load balancing optimization", Scalability, Medium, 100, 5, false),
    Definition("power_efficiency_matmul", "Matrix multiplication power efficiency", PowerEfficiency, Medium, 50, 5, true),
    Definition("thermal_behavior", "Thermal behavior under load", PowerEfficiency, Small, 600, 10, true),
    Definition("dvfs_efficiency", "DVFS efficiency analysis", PowerEfficiency, Medium, 20, 2, true),
    Definition("idle_power", "Idle power consumption", PowerEfficiency, Small, 1, 0, true)
  ]

  /** Exactly the power-efficiency benchmarks require power monitoring. */
  predicate PowerMarked(defs: seq<Definition>)
  {
    forall k :: 0 <= k < |defs| ==> (defs[k].requiresPower <==> defs[k].category == PowerEfficiency)
  }

  /** The table has sixteen entries, four per selector flag (memory bandwidth counting with
      throughput), and exactly the power-efficiency ones require power monitoring. */
  lemma DefinitionsTable()
    ensures |DEFINITIONS| == 16
    ensures PowerMarked(DEFINITIONS)
    ensures forall k :: 0 <= k < 4 ==> DEFINITIONS[k].category in {Throughput, MemoryBandwidth}
    ensures forall k :: 4 <= k < 8 ==> DEFINITIONS[k].category == Latency
    ensures forall k :: 8 <= k < 12 ==> DEFINITIONS[k].category == Scalability
    ensures forall k :: 12 <= k < 16 ==> DEFINITIONS[k].category == PowerEfficiency
  {
  }

  // ---------------------------------------------------------------------------------------
  // Sizes

  /** parse_benchmark_size: any unrecognised name falls back to medium. */
  function ParseBenchmarkSize(s: string): (r: SizeChoice)
    ensures r == Small <==> s == "small"
    ensures r == Large <==> s == "large"
    ensures r == XLarge <==> s == "xlarge"
    ensures r == Medium <==> s != "small" && s != "large" && s != "xlarge"
  {
    if s == "small" then Small
    else if s == "medium" then Medium
    else if s == "large" then Large
    else if s == "xlarge" then XLarge
    else Medium
  }

  /** The names the usage text lists for --size. */
  function SizeName(z: SizeChoice): string
  {
    match z
    case Small => "small"
    case Medium => "medium"
    case Large => "large"
    case XLarge => "xlarge"
  }

  /** Every listed size name parses back to its size. */
  lemma SizeNameRoundTrip(z: SizeChoice)
    ensures ParseBenchmarkSize(SizeName(z)) == z
  {
  }

  // ---------------------------------------------------------------------------------------
  // Options

  /** benchmark_config_options_t. */
  datatype Options = Options(
    runAll: bool, runThroughput: bool, runLatency: bool, runScalability: bool, runPower: bool,
    specific: string, size: SizeChoice, iterations: u32, warmup: u32, threadCount: u32,
    enablePower: bool, enableThermal: bool, verbose: bool, outputDirectory: string,
    logFile: string, csv: bool, json: bool, help: bool)

  /** The initial value of g_config. */
  const DEFAULT_OPTIONS: Options := Options(
    true, false, false, false, false, "", Medium, 0, 0, 4, false, false, false,
    "./benchmark_results", "", true, false, false)

  const SPECIFIC_CAPACITY: nat := 128
  const PATH_CAPACITY: nat := 256

  /** One option as getopt_long returns it; a numeric value is what atoi made of the
      argument, and `Unknown` is '?' as well as any unhandled code. */
  datatype BenchOption =
    | All | ThroughputFlag | LatencyFlag | ScalabilityFlag | PowerFlag | Benchmark(name: string)
    | Size(sizeName: string) | Iterations(n: int) | Warmup(n: int) | Threads(n: int)
    | EnablePower | EnableThermal | Verbose | Output(dir: string) | Log(file: string)
    | Csv | Json | NoCsv | Help | Unknown

  /** The option clears run_all_benchmarks. */
  predicate Deselects(o: BenchOption)
  {
    o.ThroughputFlag? || o.LatencyFlag? || o.ScalabilityFlag? || o.PowerFlag? || o.Benchmark?
  }

  /** The option ends parsing. */
  predicate Stops(o: BenchOption)
  {
    o.Help? || o.Unknown?
  }

  /** The (uint32_t) cast of an int. */
  function ToU32(n: int): u32
  {
    n % TWO_32
  }

  /** The effect of one option that does not end parsing. */
  function ApplyOption(c: Options, o: BenchOption): Options
    requires !Stops(o)
  {
    match o
    case All => c.(runAll := true)
    case ThroughputFlag => c.(runThroughput := true, runAll := false)
    case LatencyFlag => c.(runLatency := true, runAll := false)
    case ScalabilityFlag => c.(runScalability := true, runAll := false)
    case PowerFlag => c.(runPower := true, runAll := false)
    case Benchmark(name) => c.(specific := Truncate(name, SPECIFIC_CAPACITY - 1), runAll := false)
    case Size(s) => c.(size := ParseBenchmarkSize(s))
    case Iterations(n) => c.(iterations := ToU32(n))
    case Warmup(n) => c.(warmup := ToU32(n))
    case Threads(n) => c.(threadCount := ToU32(n))
    case EnablePower => c.(enablePower := true)
    case EnableThermal => c.(enableThermal := true)
    case Verbose => c.(verbose := true)
    case Output(dir) => c.(outputDirectory := Truncate(dir, PATH_CAPACITY - 1))
    case Log(file) => c.(logFile := Truncate(file, PATH_CAPACITY - 1))
    case Csv => c.(csv := true)
    case Json => c.(json := true)
    case NoCsv => c.(csv := false)
  }

  /** parse_command_line as a fold: options apply in order until -h (which sets help and
      returns 0) or an unknown option (which returns -1). */
  function Parse(c: Options, args: seq<BenchOption>): (int, Options)
    decreases |args|
  {
    if args == [] then (0, c)
    else if args[0].Help? then (0, c.(help := true))
    else if args[0].Unknown? then (-1, c)
    else Parse(ApplyOption(c, args[0]), args[1..])
  }

  /** Parsing a list of options none of which stops is applying them one after another:
      appending one more option applies it to the result. */
  lemma {:induction false} ParseSnoc(c: Options, args: seq<BenchOption>, o: BenchOption)
    requires forall k :: 0 <= k < |args| ==> !Stops(args[k])
    requires !Stops(o)
    ensures Parse(c, args).0 == 0
    ensures Parse(c, args + [o]) == (0, ApplyOption(Parse(c, args).1, o))
    decreases |args|
  {
    if args != [] {
      assert (args + [o])[1..] == args[1..] + [o];
      ParseSnoc(ApplyOption(c, args[0]), args[1..], o);
    }
  }

  /** No option of args clears run_all_benchmarks. */
  predicate NoneDeselect(args: seq<BenchOption>)
  {
    forall k :: 0 <= k < |args| ==> !Deselects(args[k])
  }

  /** args[i] is -a and no selector follows it. */
  predicate AllAfter(args: seq<BenchOption>, i: nat)
  {
    i < |args| && args[i].All? && forall k :: i < k < |args| ==> !Deselects(args[k])
  }

  /** The last -a/selector decides run_all_benchmarks: it ends up set exactly when either it
      started set and no selector cleared it, or some -a comes after every selector. */
  lemma {:induction false} RunAllFollowsLastSelector(c: Options, args: seq<BenchOption>)
    requires forall k :: 0 <= k < |args| ==> !Stops(args[k])
    ensures Parse(c, args).0 == 0
    ensures Parse(c, args).1.runAll <==>
      (c.runAll && NoneDeselect(args)) || exists i :: 0 <= i < |args| && AllAfter(args, i)
    decreases |args|
  {
    if args == [] {
      return;
    }
    var init, o := args[..|args| - 1], args[|args| - 1];
    assert args == init + [o];
    ParseSnoc(c, init, o);
    RunAllFollowsLastSelector(c, init);
    var last := |args| - 1;
    if o.All? {
      assert AllAfter(args, last);
    } else if Deselects(o) {
      assert !NoneDeselect(args);
      forall i | 0 <= i < |args| ensures !AllAfter(args, i) {
        if i < last {
          assert Deselects(args[last]);
        }
      }
    } else {
      assert NoneDeselect(args) <==> NoneDeselect(init) by {
        if NoneDeselect(init) {
          forall k | 0 <= k < |args| ensures !Deselects(args[k]) {
            if k < last { assert args[k] == init[k]; }
          }
        }
      }
      forall i | 0 <= i < |args| ensures AllAfter(args, i) <==> i < |init| && AllAfter(init, i) {
        if i < last {
          assert args[i] == init[i];
          if AllAfter(init, i) {
            forall k | i < k < |args| ensures !Deselects(args[k]) {
              if k < last { assert args[k] == init[k]; }
            }
          }
        }
      }
    }
  }

  lemma ApplySelectors(c: Options, o: BenchOption)
    requires !Stops(o)
    ensures ApplyOption(c, o).runThroughput == (c.runThroughput || o == ThroughputFlag)
    ensures ApplyOption(c, o).runLatency == (c.runLatency || o == LatencyFlag)
    ensures ApplyOption(c, o).runScalability == (c.runScalability || o == ScalabilityFlag)
    ensures ApplyOption(c, o).runPower == (c.runPower || o == PowerFlag)
  {
    match o
    case All =>
    case ThroughputFlag =>
    case LatencyFlag =>
    case ScalabilityFlag =>
    case PowerFlag =>
    case Benchmark(_) =>
    case Size(_) =>
    case Iterations(_) =>
    case Warmup(_) =>
    case Threads(_) =>
    case EnablePower =>
    case EnableThermal =>
    case Verbose =>
    case Output(_) =>
    case Log(_) =>
    case Csv =>
    case Json =>
    case NoCsv =>
  }

  /** A category flag, once given, stays set. */
  lemma {:induction false} SelectorsAccumulate(c: Options, args: seq<BenchOption>)
    requires forall k :: 0 <= k < |args| ==> !Stops(args[k])
    ensures Parse(c, args).1.runThroughput <==> c.runThroughput || ThroughputFlag in args
    ensures Parse(c, args).1.runLatency <==> c.runLatency || LatencyFlag in args
    ensures Parse(c, args).1.runScalability <==> c.runScalability || ScalabilityFlag in args
    ensures Parse(c, args).1.runPower <==> c.runPower || PowerFlag in args
    decreases |args|
  {
    if args != [] {
      var init, o := args[..|args| - 1], args[|args| - 1];
      assert args == init + [o];
      ParseSnoc(c, init, o);
      SelectorsAccumulate(c, init);
      ApplySelectors(Parse(c, init).1, o);
      assert ThroughputFlag in args <==> ThroughputFlag in init || o == ThroughputFlag;
      assert LatencyFlag in args <==> LatencyFlag in init || o == LatencyFlag;
      assert ScalabilityFlag in args <==> ScalabilityFlag in init || o == ScalabilityFlag;
      assert PowerFlag in args <==> PowerFlag in init || o == PowerFlag;
    }
  }

  /** Options after the first -h are not looked at: parsing returns 0 with help set and
      everything else as the options before it left it. */
  lemma {:induction false} HelpStops(c: Options, args: seq<BenchOption>, h: nat)
    requires h < |args| && args[h].Help? && forall k :: 0 <= k < h ==> !Stops(args[k])
    ensures Parse(c, args) == (0, Parse(c, args[..h]).1.(help := true))
    decreases |args|
  {
    if h > 0 {
      HelpStops(ApplyOption(c, args[0]), args[1..], h - 1);
      assert args[1..][..h - 1] == args[..h][1..];
    }
  }

  /** An unknown option makes parsing fail, whatever came before it. */
  lemma {:induction false} UnknownFails(c: Options, args: seq<BenchOption>, u: nat)
    requires u < |args| && args[u].Unknown? && forall k :: 0 <= k < u ==> !Stops(args[k])
    ensures Parse(c, args).0 == -1
    decreases |args|
  {
    if u > 0 {
      UnknownFails(ApplyOption(c, args[0]), args[1..], u - 1);
    }
  }

  // ---------------------------------------------------------------------------------------
  // Selection

  /** should_run_benchmark. */
  function ShouldRunBenchmark(c: Options, d: Definition): (run: bool)
    ensures c.runAll ==> run
    ensures !c.runAll && c.specific != [] ==> (run <==> d.name == c.specific)
    ensures !c.runAll && c.specific == [] ==>
      (run <==> (c.runThroughput && d.category in {Throughput, MemoryBandwidth})
                || (c.runLatency && d.category == Latency)
                || (c.runScalability && d.category == Scalability)
                || (c.runPower && d.category == PowerEfficiency))
  {
    if c.runAll then true
    else if |c.specific| > 0 then d.name == c.specific
    else if c.runThroughput && (d.category == Throughput || d.category == MemoryBandwidth) then true
    else if c.runLatency && d.category == Latency then true
    else if c.runScalability && d.category == Scalability then true
    else if c.runPower && d.category == PowerEfficiency then true
    else false
  }

  /** `-l` alone selects the four latency benchmarks of the table and nothing else. */
  lemma LatencyFlagSelects()
    ensures var c := Parse(DEFAULT_OPTIONS, [LatencyFlag]).1;
      forall k :: 0 <= k < |DEFINITIONS| ==> (ShouldRunBenchmark(c, DEFINITIONS[k]) <==> 4 <= k < 8)
  {
    DefinitionsTable();
  }

  /** The benchmark_config_t the suite loop hands a benchmark: the size is the command
      line's, not the definition's; iterations and warmup are the command line's unless
      they are 0. */
  datatype LaunchConfig = LaunchConfig(name: string, category: Category, size: SizeChoice,
                                       iterations: u32, warmup: u32, enablePower: bool,
                                       enableThermal: bool, threadCount: u32)

  function Launch(c: Options, d: Definition): LaunchConfig
  {
    LaunchConfig(d.name, d.category, c.size,
                 if c.iterations != 0 then c.iterations else d.defaultIterations,
                 if c.warmup != 0 then c.warmup else d.defaultWarmup,
                 c.enablePower, c.enableThermal, c.threadCount)
  }

  /** The benchmark is selected and not skipped for lack of power monitoring. */
  predicate Runs(c: Options, d: Definition)
  {
    ShouldRunBenchmark(c, d) && !(d.requiresPower && !c.enablePower)
  }

  /** The configurations of the benchmarks the suite runs, in table order. */
  function Launches(c: Options, defs: seq<Definition>): seq<LaunchConfig>
  {
    if defs == [] then []
    else Launches(c, defs[..|defs| - 1]) + (if Runs(c, defs[|defs| - 1]) then [Launch(c, defs[|defs| - 1])] else [])
  }

  /** How many of the benchmarks that run return nonzero. */
  function Failures(c: Options, defs: seq<Definition>, results: seq<int>): nat
    requires |results| == |defs|
  {
    if defs == [] then 0
    else Failures(c, defs[..|defs| - 1], results[..|results| - 1])
         + (if Runs(c, defs[|defs| - 1]) && results[|results| - 1] != 0 then 1 else 0)
  }

  /** Without power monitoring no power-efficiency benchmark is launched. */
  lemma {:induction false} NoPowerWithoutMonitoring(c: Options, defs: seq<Definition>)
    requires PowerMarked(defs) && !c.enablePower
    ensures forall k :: 0 <= k < |Launches(c, defs)| ==> Launches(c, defs)[k].category != PowerEfficiency
  {
    if defs != [] {
      NoPowerWithoutMonitoring(c, defs[..|defs| - 1]);
    }
  }

  /** Every launch runs at the command line's size, and with the command line's iteration
      count when that is nonzero; with a zero count, each launch takes the default count of
      the table entry it was made from. */
  lemma {:induction false} LaunchIterations(c: Options, defs: seq<Definition>)
    ensures forall k :: 0 <= k < |Launches(c, defs)| ==>
      (c.iterations != 0 ==> Launches(c, defs)[k].iterations == c.iterations)
      && Launches(c, defs)[k].size == c.size
    ensures c.iterations == 0 ==> forall k :: 0 <= k < |Launches(c, defs)| ==>
      exists j :: 0 <= j < |defs| && Launches(c, defs)[k].name == defs[j].name
                  && Launches(c, defs)[k].iterations == defs[j].defaultIterations
  {
    if defs != [] {
      var init := defs[..|defs| - 1];
      LaunchIterations(c, init);
      if c.iterations == 0 {
        var l := Launches(c, defs);
        forall k | 0 <= k < |l|
          ensures exists j :: 0 <= j < |defs| && l[k].name == defs[j].name && l[k].iterations == defs[j].defaultIterations
        {
          if k < |Launches(c, init)| {
            assert l[k] == Launches(c, init)[k];
            var j :| 0 <= j < |init| && Launches(c, init)[k].name == init[j].name
                     && Launches(c, init)[k].iterations == init[j].defaultIterations;
            assert defs[j] == init[j];
          } else {
            assert l[k] == Launch(c, defs[|defs| - 1]);
            var j := |defs| - 1;
            assert l[k].name == defs[j].name && l[k].iterations == defs[j].defaultIterations;
          }
        }
      }
    } else {
      assert Launches(c, defs) == [];
    }
  }

  /** g_config, the runner's global options. */
  class Runner {
    var options: Options

    constructor ()
      ensures options == DEFAULT_OPTIONS
    {
      options := DEFAULT_OPTIONS;
    }

    /** parse_command_line: folds the options into g_config in order. */
    method ParseCommandLine(args: seq<BenchOption>) returns (r: int)
      modifies this
      ensures (r, options) == Parse(old(options), args)
    {
      var i := 0;
      while i < |args|
        invariant 0 <= i <= |args|
        invariant Parse(old(options), args) == Parse(options, args[i..])
      {
        assert args[i..][1..] == args[i + 1..];
        var o := args[i];
        if o.Help? {
          options := options.(help := true);
          return 0;
        } else if o.Unknown? {
          return -1;
        }
        options := ApplyOption(options, o);
        i := i + 1;
      }
      r := 0;
    }

    /** run_benchmark_suite: runs every selected benchmark that is not skipped, in table
        order; `results[i]` is what benchmark i returns. The suite fails iff one did. */
    method RunBenchmarkSuite(results: seq<int>) returns (r: int, launched: seq<LaunchConfig>, passed: nat, failed: nat)
      requires |results| == |DEFINITIONS|
      ensures launched == Launches(options, DEFINITIONS)
      ensures failed == Failures(options, DEFINITIONS, results)
      ensures passed + failed == |launched|
      ensures r == 0 <==> failed == 0
      ensures r == 0 || r == -1
    {
      launched, passed, failed := [], 0, 0;
      for i := 0 to |DEFINITIONS|
        invariant launched == Launches(options, DEFINITIONS[..i])
        invariant failed == Failures(options, DEFINITIONS[..i], results[..i])
        invariant passed + failed == |launched|
      {
        assert DEFINITIONS[..i + 1][..i] == DEFINITIONS[..i];
        assert results[..i + 1][..i] == results[..i];
        var d := DEFINITIONS[i];
        if !ShouldRunBenchmark(options, d) {
          continue;
        }
        if d.requiresPower && !options.enablePower {
          continue;
        }
        launched := launched + [Launch(options, d)];
        if results[i] == 0 {
          passed := passed + 1;
        } else {
          failed := failed + 1;
        }
      }
      assert DEFINITIONS[..|DEFINITIONS|] == DEFINITIONS;
      assert results[..|results|] == results;
      r := if failed == 0 then 0 else -1;
    }
  }
}
