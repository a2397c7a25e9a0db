/**
 * The benchmark framework's integer and string logic: the size and dimension tables, the
 * operation-count formula, the to-string tables, default configurations, the data size of
 * a context, the bounded latency-sample log, and the initialised flag. Timing, the
 * statistics over samples and the filling of buffers with floats are not part of it.
 */
module BenchmarkFramework {
  import opened Common

  // benchmark_type_t
  const BENCHMARK_MATRIX_MULT: int := 0
  const BENCHMARK_CONV2D: int := 1
  const BENCHMARK_ELEMENT_ADD: int := 2
  const BENCHMARK_ELEMENT_MUL: int := 3
  const BENCHMARK_MEMORY_BANDWIDTH: int := 4
  const BENCHMARK_LATENCY: int := 5
  const BENCHMARK_CUSTOM: int := 6

  // benchmark_size_t
  const SIZE_SMALL: int := 0
  const SIZE_MEDIUM: int := 1
  const SIZE_LARGE: int := 2
  const SIZE_XLARGE: int := 3
  const SIZE_CUSTOM: int := 4

  const MAX_BENCHMARK_NAME_LENGTH: nat := 128
  const MAX_DESCRIPTION_LENGTH: nat := 256
  const MAX_WARMUP_ITERATIONS: u32 := 10
  const DEFAULT_BENCHMARK_ITERATIONS: u32 := 100
  const FLOAT_SIZE: nat := 4

  predicate IsType(t: int) { BENCHMARK_MATRIX_MULT <= t <= BENCHMARK_CUSTOM }
  predicate IsSize(s: int) { SIZE_SMALL <= s <= SIZE_CUSTOM }

  // ---------------------------------------------------------------------------------------
  // Tables

  /** get_matrix_dimensions: square matrices for every size, 64 x 64 for anything else. */
  function MatrixDimensions(size: int): (d: (u32, u32))
    ensures d.0 == d.1
    ensures d.0 == if size == SIZE_SMALL then 16 else if size == SIZE_LARGE then 256
                   else if size == SIZE_XLARGE then 1024 else 64
  {
    if size == SIZE_SMALL then (16, 16)
    else if size == SIZE_MEDIUM then (64, 64)
    else if size == SIZE_LARGE then (256, 256)
    else if size == SIZE_XLARGE then (1024, 1024)
    else (64, 64)
  }

  /** get_buffer_size: one float per matrix element (rows * cols is uint32 arithmetic). */
  function BufferSize(size: int): (n: u64)
  {
    var (rows, cols) := MatrixDimensions(size);
    ((rows * cols) % TWO_32) * FLOAT_SIZE
  }

  /** The buffer sizes are the 1 KB, 16 KB, 256 KB and 4 MB the size enum documents, and
      hold exactly one float per element of the size's matrix. */
  lemma BufferSizes(size: int)
    ensures BufferSize(size) == FLOAT_SIZE * MatrixDimensions(size).0 * MatrixDimensions(size).1
    ensures size == SIZE_SMALL ==> BufferSize(size) == 1024
    ensures size == SIZE_MEDIUM ==> BufferSize(size) == 16 * 1024
    ensures size == SIZE_LARGE ==> BufferSize(size) == 256 * 1024
    ensures size == SIZE_XLARGE ==> BufferSize(size) == 4 * 1024 * 1024
  {
  }

  /** calculate_operations_count in uint64_t arithmetic: the product wraps modulo 2^64. */
  function OperationsCount(t: int, x: u32, y: u32, z: u32): (n: u64)
  {
    if t == BENCHMARK_MATRIX_MULT then (x * y * z * 2) % TWO_64
    else if t == BENCHMARK_CONV2D then (x * y * 9 * 2) % TWO_64
    else if t == BENCHMARK_MEMORY_BANDWIDTH then 0
    else (x * y) % TWO_64
  }

  lemma MulMonotone(a: nat, b: nat, c: nat)
    requires b <= c
    ensures a * b <= a * c
  {
    assert a * c == a * b + a * (c - b);
  }

  /** Two 32-bit factors never overflow a 64-bit product. */
  lemma ProductFits(x: u32, y: u32)
    ensures x * y < TWO_64
  {
    MulMonotone(x, y, TWO_32 - 1);
    MulMonotone(TWO_32 - 1, x, TWO_32 - 1);
    assert (TWO_32 - 1) * (TWO_32 - 1) < TWO_64;
  }

  /** A matrix multiplication counts one multiply and one add per inner-product step: the
      element-wise count times z times 2. A convolution counts 9 * 2 (a 3 x 3 kernel,
      multiply and add) per output element. Memory bandwidth counts nothing; every other
      type counts one per element. All of this holds while the count fits in 64 bits. */
  lemma OperationsCountShape(t: int, x: u32, y: u32, z: u32)
    ensures t == BENCHMARK_MATRIX_MULT && x * y * z * 2 < TWO_64 ==>
      OperationsCount(t, x, y, z) == OperationsCount(BENCHMARK_ELEMENT_ADD, x, y, z) * z * 2
    ensures t == BENCHMARK_CONV2D && x * y * 9 * 2 < TWO_64 ==>
      OperationsCount(t, x, y, z) == OperationsCount(BENCHMARK_ELEMENT_ADD, x, y, z) * 9 * 2
    ensures t == BENCHMARK_MEMORY_BANDWIDTH ==> OperationsCount(t, x, y, z) == 0
    ensures t != BENCHMARK_MATRIX_MULT && t != BENCHMARK_CONV2D && t != BENCHMARK_MEMORY_BANDWIDTH ==>
      OperationsCount(t, x, y, z) == x * y
  {
    ProductFits(x, y);
    MulNat(x, y);
    ModInRange(x * y, TWO_64);
    assert OperationsCount(BENCHMARK_ELEMENT_ADD, x, y, z) == x * y;
    if t == BENCHMARK_MATRIX_MULT && x * y * z * 2 < TWO_64 {
      MulNat(x * y, z);
      MulNat(x * y * z, 2);
      ModInRange(x * y * z * 2, TWO_64);
    }
    if t == BENCHMARK_CONV2D && x * y * 9 * 2 < TWO_64 {
      MulNat(x * y, 9);
      MulNat(x * y * 9, 2);
      ModInRange(x * y * 9 * 2, TWO_64);
    }
  }

  /** The 64-bit count of a matrix product wraps once x * y * z * 2 reaches 2^64: three
      dimensions of 2^22 count no operations at all. */
  lemma OperationsCountWraps()
    ensures OperationsCount(BENCHMARK_MATRIX_MULT, 0x40_0000, 0x40_0000, 0x40_0000) == 0
  {
  }

  /** benchmark_type_to_string. */
  function TypeToString(t: int): (s: string)
    ensures s == "Unknown" <==> !IsType(t)
  {
    if t == BENCHMARK_MATRIX_MULT then "Matrix Multiplication"
    else if t == BENCHMARK_CONV2D then "2D Convolution"
    else if t == BENCHMARK_ELEMENT_ADD then "Element-wise Addition"
    else if t == BENCHMARK_ELEMENT_MUL then "Element-wise Multiplication"
    else if t == BENCHMARK_MEMORY_BANDWIDTH then "Memory Bandwidth"
    else if t == BENCHMARK_LATENCY then "Latency"
    else if t == BENCHMARK_CUSTOM then "Custom"
    else "Unknown"
  }

  /** benchmark_size_to_string. */
  function SizeToString(size: int): (s: string)
    ensures s == "Unknown" <==> !IsSize(size)
  {
    if size == SIZE_SMALL then "Small (16x16)"
    else if size == SIZE_MEDIUM then "Medium (64x64)"
    else if size == SIZE_LARGE then "Large (256x256)"
    else if size == SIZE_XLARGE then "X-Large (1024x1024)"
    else if size == SIZE_CUSTOM then "Custom"
    else "Unknown"
  }

  /** Distinct enum values are named distinctly: the names identify the value. */
  lemma NamesDistinct(t1: int, t2: int, s1: int, s2: int)
    ensures IsType(t1) && IsType(t2) && t1 != t2 ==> TypeToString(t1) != TypeToString(t2)
    ensures IsSize(s1) && IsSize(s2) && s1 != s2 ==> SizeToString(s1) != SizeToString(s2)
  {
  }

  // ---------------------------------------------------------------------------------------
  // Configurations

  /** benchmark_config_t without the floating-point target duration. */
  datatype BenchmarkConfig = BenchmarkConfig(
    name: string, description: string, benchmarkType: int, size: int,
    customX: u32, customY: u32, customZ: u32, iterations: u32, warmupIterations: u32,
    powerMonitoring: bool, thermalMonitoring: bool, detailedTiming: bool, memoryProfiling: bool,
    threadCount: u32)

  /** create_default_config: the names are snprintf'd into their fixed buffers. */
  function DefaultConfig(t: int, size: int): (c: BenchmarkConfig)
    ensures c.benchmarkType == t && c.size == size
    ensures c.iterations == DEFAULT_BENCHMARK_ITERATIONS && c.warmupIterations == MAX_WARMUP_ITERATIONS
    ensures c.threadCount == 1
    ensures c.powerMonitoring && c.thermalMonitoring && c.detailedTiming && c.memoryProfiling
    ensures |c.name| < MAX_BENCHMARK_NAME_LENGTH && |c.description| < MAX_DESCRIPTION_LENGTH
  {
    var rows := MatrixDimensions(size).0;
    var cols := MatrixDimensions(size).1;
    BenchmarkConfig(
      Truncate(TypeToString(t) + "_" + SizeToString(size), MAX_BENCHMARK_NAME_LENGTH - 1),
      Truncate("Benchmark for " + TypeToString(t) + " with " + SizeToString(size) + " data size",
               MAX_DESCRIPTION_LENGTH - 1),
      t, size, rows, cols, rows, DEFAULT_BENCHMARK_ITERATIONS, MAX_WARMUP_ITERATIONS,
      true, true, true, true, 1)
  }

  /** The custom dimensions of a default configuration describe the size's matrix: square,
      with the matrix product's inner dimension equal to its rows, and one float each
      filling exactly the size's buffer. The names fit their buffers untruncated. */
  lemma DefaultConfigDimensions(t: int, size: int)
    ensures var c := DefaultConfig(t, size);
      c.customX == c.customY == c.customZ == MatrixDimensions(size).0
      && BufferSize(size) == FLOAT_SIZE * c.customX * c.customY
      && c.name == TypeToString(t) + "_" + SizeToString(size)
  {
    BufferSizes(size);
  }

  /** ctx->data_size: the size's buffer, or for SIZE_CUSTOM custom_x * custom_y floats,
      where custom_x * custom_y is a uint32 product. */
  function DataSize(c: BenchmarkConfig): (n: u64)
    ensures c.size != SIZE_CUSTOM ==> n == BufferSize(c.size)
    ensures c.size == SIZE_CUSTOM && c.customX * c.customY < TWO_32 ==> n == FLOAT_SIZE * c.customX * c.customY
  {
    if c.size == SIZE_CUSTOM then
      var p := c.customX * c.customY;
      MulNat(c.customX, c.customY);
      if p < TWO_32 then
        ModInRange(p, TWO_32);
        assert p * FLOAT_SIZE == FLOAT_SIZE * c.customX * c.customY;
        p * FLOAT_SIZE
      else (p % TWO_32) * FLOAT_SIZE
    else BufferSize(c.size)
  }

  /** The uint32 product wraps: 65536 x 65536 custom dimensions give a zero-byte buffer. */
  lemma CustomDataSizeWraps()
    ensures DataSize(DefaultConfig(BENCHMARK_CUSTOM, SIZE_CUSTOM).(customX := 65536, customY := 65536)) == 0
  {
  }

  // ---------------------------------------------------------------------------------------
  // Contexts and latency samples

  /** benchmark_result_t: the latency-sample array has one slot per configured iteration. */
  class BenchmarkResult {
    var config: BenchmarkConfig
    var samples: array<real>
    var sampleCount: u32

    constructor (config: BenchmarkConfig)
      ensures this.config == config && fresh(samples) && samples.Length == config.iterations
      ensures sampleCount == 0
    {
      this.config := config;
      samples := new real[config.iterations](_ => 0.0);
      sampleCount := 0;
    }
  }

  /** benchmark_context_t without the device handles and data buffers. */
  class BenchmarkContext {
    var config: BenchmarkConfig
    var result: BenchmarkResult?
    var dataSize: u64
    var stopRequested: bool

    ghost predicate Valid()
      reads this, result
    {
      result != null ==>
        result.samples.Length == config.iterations && result.sampleCount <= config.iterations
    }

    constructor (config: BenchmarkConfig)
      ensures Valid() && this.config == config && dataSize == DataSize(config) && !stopRequested
      ensures result != null && fresh(result) && fresh(result.samples)
      ensures result.config == config && result.sampleCount == 0
    {
      this.config := config;
      dataSize := DataSize(config);
      stopRequested := false;
      result := new BenchmarkResult(config);
    }
  }

  /** create_benchmark_context: NULL for a NULL config or when any allocation or the device
      fails (`acquired` false). */
  method CreateBenchmarkContext(config: Option<BenchmarkConfig>, acquired: bool) returns (ctx: BenchmarkContext?)
    ensures (ctx != null) == (config.Some? && acquired)
    ensures ctx != null ==>
      fresh(ctx) && ctx.Valid() && ctx.config == config.value && ctx.dataSize == DataSize(config.value)
      && ctx.result != null && ctx.result.sampleCount == 0 && !ctx.stopRequested
  {
    if config.None? || !acquired {
      return null;
    }
    ctx := new BenchmarkContext(config.value);
  }

  function SampleFootprint(ctx: BenchmarkContext?): set<object>
    reads ctx, if ctx != null && ctx.result != null then {ctx.result} else {}
  {
    if ctx == null || ctx.result == null then {} else {ctx.result as object, ctx.result.samples as object}
  }

  /** record_latency_sample: appends the sample while there is room for it, else does
      nothing; earlier samples are kept. */
  method RecordLatencySample(ctx: BenchmarkContext?, latencyMs: real)
    requires ctx != null ==> ctx.Valid()
    modifies SampleFootprint(ctx)
    ensures ctx != null ==> ctx.Valid() && ctx.result == old(ctx.result)
    ensures ctx != null && ctx.result != null ==>
      var r := ctx.result;
      if old(r.sampleCount) < ctx.config.iterations then
        r.sampleCount == old(r.sampleCount) + 1 && r.samples[..] == old(r.samples[..])[old(r.sampleCount) := latencyMs]
      else
        r.sampleCount == old(r.sampleCount) && r.samples[..] == old(r.samples[..])
  {
    if ctx == null || ctx.result == null || ctx.result.sampleCount >= ctx.config.iterations {
      return;
    }
    ctx.result.samples[ctx.result.sampleCount] := latencyMs;
    ctx.result.sampleCount := ctx.result.sampleCount + 1;
  }

  /** The framework_initialized flag. */
  class Framework {
    var initialized: bool

    constructor ()
      ensures !initialized
    {
      initialized := false;
    }

    /** benchmark_framework_init: always 0, and idempotent. */
    method Init() returns (r: int)
      modifies this
      ensures r == 0 && initialized
    {
      if initialized {
        return 0;
      }
      initialized := true;
      r := 0;
    }

    /** benchmark_framework_cleanup: clears the flag; a no-op when it is already clear. */
    method Cleanup()
      modifies this
      ensures !initialized
    {
      if !initialized {
        return;
      }
      initialized := false;
    }
  }
}
