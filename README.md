# FPGA NPU: staging library, driver and test harness in Dafny

This project models the software side of an FPGA neural processing unit (NPU) attached over
PCIe, and proves properties of the model.

- **User-space library** (`NpuLib`). It keeps one private 1 MiB staging buffer with a bump
  offset. It stages tensors into that buffer, encodes 36-byte `npu_instruction_t` records
  over the start of the buffer and sends them to the device with `write()`.
- **Kernel driver** (`NpuDriver`). It has a single-session open/release flag and an
  interrupt handler that sets a completion flag when STATUS shows DONE. Its `read`/`write`
  go through a 16-page DMA buffer with length clamping. Its `ioctl` reports STATUS or waits
  for completion. The control BAR is a map from register offset to 32-bit value, and every
  `iowrite32` is recorded in order.
- **Integration test framework** (`IntegrationFramework`). Byte-pattern fill, buffer
  compare, the bounded cleanup registry, init/cleanup, test contexts and the counting of
  suite results.
- **Benchmark framework** (`BenchmarkFramework`). Size and dimension tables, the operation
  count formula with its 64-bit wrap, default configurations, custom sizing and the bounded
  latency-sample append.
- **The two C runners** (`BenchmarkMain`, `IntegrationMain`). The folding of their
  command-line options into the global options record, benchmark and suite selection, and
  the result loops.
- **The Python orchestrator** (`RunTests`). The unit, integration and simulation suites it
  builds from command results, the integration command it builds, suite selection, the
  summary counts of the JSON report and the JUnit XML text.

`Common` holds the fixed-width integer types, `Option`, C string truncation (`strncpy` into
an `n`-byte buffer keeps `n - 1` characters) and a counting function.

Objects whose fields the code updates become classes:
- the NPU context, with an `array<bv8>` buffer;
- the driver device, with the BAR map and the DMA buffer array;
- the test framework globals, with the 16-slot cleanup array;
- the test suite and test context;
- the benchmark context and result, with the latency-sample array;
- the two runners' global option records;
- the Python orchestrator.

Pure decisions and encodings are functions, and loops are methods with invariants. Outside
events are parameters:
- what `write()`, `ioctl()`, `copy_from_user`, `calloc` and `open` return;
- what each test or benchmark returns;
- what a subprocess exits with;
- which simulators are on the path.

C integer arithmetic is written out with its wrap-around: `uint32_t` products, `size_t`
sums and products, and the `(uint32_t)` casts of `atoi` results. The one exception is the
staging buffer's bound test `offset + size > buffer_size`. Its `size_t` sum can wrap, and
the model uses the exact test instead (see "## Findings" and "## Left out").

## Model

| member | source | states |
|---|---|---|
| NpuLib.ElementSize | software/userspace/fpga_npu_lib.c:151-157 | INT16 takes 2 bytes, INT32 and FLOAT32 take 4, and every other type code (INT8 included) takes 1 |
| NpuLib.ElementCount | software/userspace/fpga_npu_lib.c:159 | the uint32 element count is 0 when a dimension is 0 and equals n*c*h*w when that product does not wrap |
| NpuLib.CreateTensor | software/userspace/fpga_npu_lib.c:138-162 | the descriptor keeps the data and the dims in N,C,H,W order; its size is 0 for a zero dimension and n*c*h*w*element size when the count does not wrap |
| NpuLib.CreateTensorExample | software/userspace/fpga_npu_lib.c:138-162 | a 2x3x2x2 FLOAT32 tensor is 96 bytes, and a tensor with a zero dimension is 0 bytes |
| NpuLib.Bytes | software/userspace/fpga_npu_lib.h:45-50 | a memcpy from a descriptor reads exactly `size` bytes |
| NpuLib.Fields | software/userspace/fpga_npu_lib.h:56-63 | an instruction is nine 32-bit fields |
| NpuLib.WordBytes | software/userspace/fpga_npu_lib.h:56-63 | a field occupies four bytes of memory |
| NpuLib.WordRoundTrip | software/userspace/fpga_npu_lib.h:56-63 | reading a 32-bit word back from its four bytes gives the word, and the reverse |
| NpuLib.WordsBytes | software/userspace/fpga_npu_lib.h:56-63 | the image of k words is 4k bytes |
| NpuLib.WordsBytesAt | software/userspace/fpga_npu_lib.h:56-63 | word k of a record sits at bytes 4k..4k+4 of its image |
| NpuLib.EncodeInstruction | software/userspace/fpga_npu_lib.c:177 | the bytes the instruction memcpy copies are 36 bytes |
| NpuLib.DecodeEncode | software/userspace/fpga_npu_lib.c:177-180 | the device decodes the 36 bytes written into exactly the instruction the library built |
| NpuLib.EncodeBatch | software/userspace/fpga_npu_lib.c:207 | the image of an instruction array is 36 bytes per entry |
| NpuLib.EncodeBatchAt | software/userspace/fpga_npu_lib.c:207 | entry k of an instruction array occupies bytes 36k..36k+36 of its image |
| NpuLib.Splice | software/userspace/fpga_npu_lib.c:451 | a memcpy into a region changes the bytes of that region to the source and keeps all other bytes |
| NpuLib.SpliceReadBack | software/userspace/fpga_npu_lib.c:451 | reading a region right after copying into it gives the copied bytes |
| NpuLib.SpliceFrame | software/userspace/fpga_npu_lib.c:451 | copying into one region leaves every disjoint region as it was |
| NpuLib.FitsAsWrittenAdmitsHugeSize | software/userspace/fpga_npu_lib.c:113 | the bound test as written, `offset + size > buffer_size` in 64-bit size_t, accepts offset 16 and size 2^64-16, a region that does not fit |
| NpuLib.FitsAgrees | software/userspace/fpga_npu_lib.c:113 | the bound test as written and the exact test agree for every size that leaves room for the buffer below 2^64 |
| NpuLib.AllocStep | software/userspace/fpga_npu_lib.c:105-122 | an allocation succeeds iff the size is nonzero and fits; it then returns the old offset and advances it by the size; otherwise the offset is unchanged; the offset never exceeds the buffer size |
| NpuLib.CarveDisjoint | software/userspace/fpga_npu_lib.c:105-122 | the regions that successive successful allocations return are non-empty, inside the buffer, ascending and pairwise disjoint |
| NpuLib.NpuContext.constructor | software/userspace/fpga_npu_lib.c:43-75 | a fresh context has an empty call trace, offset 0 and a fresh 1 MiB buffer |
| NpuLib.Init | software/userspace/fpga_npu_lib.c:43-75 | npu_init returns a handle iff the context allocation, the open of the device and the buffer allocation all succeed; the handle has offset 0 and no calls made |
| NpuLib.Cleanup | software/userspace/fpga_npu_lib.c:80-100 | npu_cleanup returns INVALID for a NULL handle and SUCCESS otherwise |
| NpuLib.Alloc | software/userspace/fpga_npu_lib.c:105-122 | npu_alloc returns NULL for a NULL handle; otherwise its result and new offset are AllocStep's, with the exact bound test rather than the wrapping sum of line 113, and the buffer and calls are unchanged |
| NpuLib.Free | software/userspace/fpga_npu_lib.c:127-133 | npu_free changes nothing |
| NpuLib.CopyInto | software/userspace/fpga_npu_lib.c:451 | the byte-by-byte copy leaves the buffer equal to the Splice of the source into it |
| NpuLib.CopyTensorToBuffer | software/userspace/fpga_npu_lib.c:440-455 | a NULL argument gives INVALID with no change; a tensor that does not fit gives MEMORY with no change; otherwise `*offset` is the old offset, the tensor bytes are spliced in there, the offset advances by the size and nothing else changes |
| NpuLib.CopyTensorFromBuffer | software/userspace/fpga_npu_lib.c:457-470 | a NULL argument gives INVALID, and a region past the buffer end gives MEMORY, leaving the tensor data unchanged; otherwise exactly the region's bytes are copied over the start of the tensor data |
| NpuLib.CopyRoundTrip | software/userspace/fpga_npu_lib.c:440-470 | copying a tensor in and reading the same region back with nothing in between gives back its data |
| NpuLib.ExecuteInstruction | software/userspace/fpga_npu_lib.c:167-187 | NULL arguments give INVALID with no change; otherwise the encoded instruction overwrites the first 36 buffer bytes, exactly one write() of those bytes is issued, and the result is SUCCESS iff write() returned 36; the offset is unchanged |
| NpuLib.BatchSize | software/userspace/fpga_npu_lib.c:195 | the batch byte size is count*36 when that does not wrap at 2^64 |
| NpuLib.BatchSizeWraps | software/userspace/fpga_npu_lib.c:195-204 | a count of 2^62 wraps to a batch size of 0, which passes the size test |
| NpuLib.ExecuteBatch | software/userspace/fpga_npu_lib.c:192-217 | NULL arguments or count 0 give INVALID with no change; a batch larger than the buffer gives MEMORY before any copy; otherwise the batch image is copied to the buffer start and written in one call, with SUCCESS iff write() returned the batch size |
| NpuLib.BatchImageDecodes | software/userspace/fpga_npu_lib.c:207-210 | when the size does not wrap, the device receives the count instructions in order, each decoding to the caller's record |
| NpuLib.WaitCompletion | software/userspace/fpga_npu_lib.c:222-236 | NULL gives INVALID; otherwise exactly one ioctl(1) is issued, the timeout is ignored, and the result is DEVICE iff the ioctl returned a negative value |
| NpuLib.GetStatus | software/userspace/fpga_npu_lib.c:241-254 | a NULL argument gives INVALID and no call; otherwise one ioctl(0) is issued, and the status is reported iff it succeeded; on failure the result is DEVICE |
| NpuLib.Pack16Unpacks | software/userspace/fpga_npu_lib.c:341-342 | `(hi << 16) \| lo` unpacks to hi and lo when both are below 2^16 |
| NpuLib.RunStaged | software/userspace/fpga_npu_lib.c:270-302 | the staged body resets the offset and stages the three tensors at 0, \|x\| and \|x\|+\|y\|, stopping with MEMORY at the first that does not fit; it then overwrites the buffer start with the instruction, writes it, waits, and copies the third region back |
| NpuLib.StageOperands | software/userspace/fpga_npu_lib.c:270-281 | the offset is reset to 0 and the three tensors are copied to 0, \|x\| and \|x\|+\|y\| in turn; the first that does not fit stops the staging with MEMORY, leaving the offset and bytes the earlier copies produced |
| NpuLib.MatrixMultiply | software/userspace/fpga_npu_lib.c:259-303 | any NULL argument gives INVALID before any state change; otherwise the staged run with the MATMUL instruction |
| NpuLib.Conv2d | software/userspace/fpga_npu_lib.c:308-353 | any NULL argument gives INVALID before any state change; otherwise the staged run with the CONV2D instruction |
| NpuLib.StagedRunOverwritesFirstTensor | software/userspace/fpga_npu_lib.c:274-295 | after a successful staged operation the buffer starts with the instruction bytes and keeps the rest of the first tensor |
| NpuLib.StagedRunNoReadBack | software/userspace/fpga_npu_lib.c:300-302 | when the first two tensors take at least 36 bytes, the output tensor's data comes back unchanged, because the device's result is never read back |
| NpuLib.ReadBackPastInstruction | software/userspace/fpga_npu_lib.c:295-302 | a region staged past the first 36 bytes survives the instruction copy |
| NpuLib.SpliceOwnPrefix | software/userspace/fpga_npu_lib.c:467 | copying a tensor's own bytes back over it changes nothing |
| NpuLib.StagedRunReadsInstruction | software/userspace/fpga_npu_lib.c:295-302 | when the first two tensors are shorter than 36 bytes, the bytes copied back into the output are instruction bytes |
| NpuLib.MatMulInstructionFields | software/userspace/fpga_npu_lib.c:285-292 | the device decodes op MATMUL, the addresses 0, \|A\| and \|A\|+\|B\|, size \|C\| and params A.dims[2], A.dims[3], B.dims[3], 0 |
| NpuLib.ConvInstructionFields | software/userspace/fpga_npu_lib.c:335-342 | the device decodes op CONV2D, the three staging addresses, and parameters that unpack to the strides and paddings |
| NpuLib.Elementwise | software/userspace/fpga_npu_lib.c:358-399 | NULL arguments give INVALID; otherwise only op and size are set, nothing is staged, and the instruction is executed |
| NpuLib.Add | software/userspace/fpga_npu_lib.c:358-376 | npu_add is the element-wise run with op ADD |
| NpuLib.Multiply | software/userspace/fpga_npu_lib.c:381-399 | npu_multiply is the element-wise run with op MUL |
| NpuLib.GetPerformanceCounters | software/userspace/fpga_npu_lib.c:404-415 | the result is INVALID iff some pointer is NULL; otherwise both counters report 0 |
| NpuLib.ResetPerformanceCounters | software/userspace/fpga_npu_lib.c:420-428 | INVALID for NULL, SUCCESS otherwise |
| NpuDriver.OpenStep | software/driver/fpga_npu_driver.c:312-330 | open succeeds iff the mutex was taken and no session is open, and it then sets the flag; an open session gives -EBUSY, and a signal gives -ERESTARTSYS, changing nothing |
| NpuDriver.IrqFlag | software/driver/fpga_npu_driver.c:295-306 | the completion flag after an interrupt is the old flag or'ed with the DONE bit of STATUS |
| NpuDriver.NpuDevice.Probe | software/driver/fpga_npu_driver.c:178-198 | probe zeroes the device state, allocates 16 pages of DMA buffer, and writes CONTROL with RESET and then ENABLE, leaving ENABLE in it |
| NpuDriver.NpuDevice.IoWrite32 | software/driver/fpga_npu_driver.c:196-198 | one register write updates that register and is appended to the record |
| NpuDriver.NpuDevice.DeviceReports | software/driver/fpga_npu_driver.c:295 | the hardware may change STATUS on its own, and nothing else changes |
| NpuDriver.NpuDevice.Remove | software/driver/fpga_npu_driver.c:264-285 | remove writes CONTROL = 0 and nothing else |
| NpuDriver.NpuDevice.Interrupt | software/driver/fpga_npu_driver.c:290-307 | without DONE it returns IRQ_NONE, writes no register and keeps the flag; with DONE it writes the status back, sets the flag and returns IRQ_HANDLED |
| NpuDriver.NpuDevice.Open | software/driver/fpga_npu_driver.c:312-330 | the result and new session flag are OpenStep's |
| NpuDriver.NpuDevice.Release | software/driver/fpga_npu_driver.c:335-343 | release clears the session flag and returns 0 |
| NpuDriver.NpuDevice.Read | software/driver/fpga_npu_driver.c:348-363 | read clamps the length to dma_size and returns that many bytes from the DMA buffer start, or -EFAULT when the user buffer is too small; it changes nothing |
| NpuDriver.NpuDevice.Write | software/driver/fpga_npu_driver.c:368-388 | write clamps the length and copies that many bytes into the DMA buffer; on success it writes DATA_ADDR = low 32 bits of the DMA handle, DATA_SIZE = len and CONTROL = ENABLE\|START, in that order, and returns len; a failed user copy gives -EFAULT with no register write |
| NpuDriver.NpuDevice.StartNpu | software/driver/fpga_npu_driver.c:382-384 | the three start writes are appended in order and the registers take their values |
| NpuDriver.NpuDevice.CopyIn | software/driver/fpga_npu_driver.c:377 | the copy fills the start of the DMA buffer with the user bytes and keeps the rest |
| NpuDriver.NpuDevice.Ioctl | software/driver/fpga_npu_driver.c:393-414 | cmd 0 reports STATUS (or -EFAULT) and changes nothing; cmd 1 completes only once the flag holds or a signal arrives, then clears the flag and returns 0; any other cmd gives -ENOTTY |
| NpuDriver.Zeros | software/driver/fpga_npu_driver.c:377 | the zero fill of a partial copy_from_user |
| NpuDriver.Sessions | software/driver/fpga_npu_driver.c:312-343 | a run of opens and releases yields one result per call |
| NpuDriver.SuccessNeedsRelease | software/driver/fpga_npu_driver.c:318-339 | from an open session, an open succeeds only after some release |
| NpuDriver.OpensNeedRelease | software/driver/fpga_npu_driver.c:318-339 | two successful opens always have a release between them |
| NpuDriver.SessionsPrefix | software/driver/fpga_npu_driver.c:312-343 | the results of earlier calls do not depend on later ones |
| NpuDriver.FlagNeedsDone | software/driver/fpga_npu_driver.c:300-307 | a wait that finds the flag set was preceded by an interrupt that saw DONE, with no wait in between |
| NpuDriver.DoneSetsFlag | software/driver/fpga_npu_driver.c:300-307 | an interrupt that saw DONE, with no wait after it, leaves the flag set |
| NpuDriver.FlagMeansDone | software/driver/fpga_npu_driver.c:300-307 | from a clear flag, the flag is set iff an interrupt has seen DONE since the last wait |
| IntegrationFramework.PatternByte | tests/integration/integration_test_framework.c:511-543 | ONES gives 0xFF, SEQUENCE gives i mod 256, CHECKERBOARD gives 0xAA at odd and 0x55 at even indices, and ZEROS or an unknown pattern gives 0 |
| IntegrationFramework.PatternShapes | tests/integration/integration_test_framework.c:529-537 | the checkerboard alternates, and the sequence repeats every 256 bytes |
| IntegrationFramework.Fill | tests/integration/integration_test_framework.c:517-521 | memset sets exactly the first size bytes |
| IntegrationFramework.InitializeTestData | tests/integration/integration_test_framework.c:509-544 | a NULL buffer or size 0 changes nothing; otherwise exactly the first size bytes take the pattern and the rest are kept |
| IntegrationFramework.CompareBuffers | tests/integration/integration_test_framework.c:437-440 | true iff the first size bytes are equal |
| IntegrationFramework.SamePatternCompares | tests/integration/integration_test_framework.c:437-544 | two buffers filled with the same non-random pattern compare equal |
| IntegrationFramework.TestContext.constructor | tests/integration/integration_test_framework.c:86-96 | a new context holds the config, result PASS, not running, and zero counters |
| IntegrationFramework.CreateTestContext | tests/integration/integration_test_framework.c:74-99 | NULL iff the config is NULL or calloc fails; otherwise a fresh zeroed context |
| IntegrationFramework.UpdatePerformanceMetrics | tests/integration/integration_test_framework.c:384-389 | the 64-bit operation counter grows by ops modulo 2^64, and nothing else changes |
| IntegrationFramework.SuiteTallyCounts | tests/integration/integration_test_framework.c:247-282 | the suite counters count PASS as passed, FAIL/TIMEOUT/ERROR as failed and SKIP as skipped; a context failure counts nowhere; failed is 0 iff no test failed |
| IntegrationFramework.GlobalStatsCounts | tests/integration/integration_test_framework.c:285-303 | total_tests counts every executed test and each bucket counts its result; ERROR is in no bucket |
| IntegrationFramework.FirstFailure | tests/integration/integration_test_framework.c:273-277 | finds the first failing test, or reports that none failed |
| IntegrationFramework.TestSuite.constructor | tests/integration/integration_test_framework.h:113-122 | a suite with its tests and configs present and zero counters |
| IntegrationFramework.NonNull | tests/integration/integration_test_framework.c:57-61 | the registered functions that are not NULL: every non-NULL function is in the result iff it is registered, no entry is NULL, and a registry without NULL entries is kept whole |
| IntegrationFramework.Framework.constructor | tests/integration/integration_test_framework.c:14-23 | the static state: not initialised, zero statistics, an empty 16-slot registry |
| IntegrationFramework.Framework.Init | tests/integration/integration_test_framework.c:29-48 | init returns 0 and is idempotent; only the first call zeroes the statistics |
| IntegrationFramework.Framework.RegisterCleanupFunction | tests/integration/integration_test_framework.c:648-653 | the function is appended iff the count is below 16 and it is not NULL; earlier entries are unchanged and the count never exceeds 16 |
| IntegrationFramework.Framework.Cleanup | tests/integration/integration_test_framework.c:50-72 | without init nothing happens; otherwise every registered non-NULL function is called in registration order and then the flag is cleared |
| IntegrationFramework.Framework.ExecuteTestSuite | tests/integration/integration_test_framework.c:238-325 | a NULL suite, tests or configs gives -1 with no change; the counters are reset, then tallied; with stop-on-first-failure the suite returns -1 right after the first failure; otherwise it returns 0 iff tests_failed == 0 |
| IntegrationFramework.FirstFailureAt | tests/integration/integration_test_framework.c:273-277 | a failure with none before it is the first failure |
| IntegrationFramework.FirstFailureNone | tests/integration/integration_test_framework.c:273-277 | with no failing test there is no first failure |
| IntegrationFramework.SuitePassesIffNoFailure | tests/integration/integration_test_framework.c:318-324 | without stopping, the suite passes iff no test failed, timed out or erred |
| BenchmarkFramework.MatrixDimensions | tests/benchmarks/benchmark_framework.c:446-465 | SMALL, MEDIUM, LARGE and XLARGE give 16, 64, 256 and 1024, anything else gives 64, and rows == cols |
| BenchmarkFramework.BufferSizes | tests/benchmarks/benchmark_framework.c:467-472 | the buffer size is 4*rows*cols: 1 KB, 16 KB, 256 KB and 4 MB |
| BenchmarkFramework.ProductFits | tests/benchmarks/benchmark_framework.c:467-472 | the product of two 32-bit factors fits in 64 bits |
| BenchmarkFramework.OperationsCountShape | tests/benchmarks/benchmark_framework.c:522-543 | when the 64-bit result does not wrap: MATRIX_MULT gives x*y*z*2, CONV2D gives x*y*9*2, MEMORY_BANDWIDTH gives 0, and every other type gives x*y |
| BenchmarkFramework.OperationsCountWraps | tests/benchmarks/benchmark_framework.c:527 | a matrix product of three 2^22 dimensions wraps the 64-bit count to 0 |
| BenchmarkFramework.TypeToString | tests/benchmarks/benchmark_framework.c:545-557 | "Unknown" iff the value is outside the type enum |
| BenchmarkFramework.SizeToString | tests/benchmarks/benchmark_framework.c:559-569 | "Unknown" iff the value is outside the size enum |
| BenchmarkFramework.NamesDistinct | tests/benchmarks/benchmark_framework.c:545-569 | distinct enum values have distinct names |
| BenchmarkFramework.DefaultConfig | tests/benchmarks/benchmark_framework.c:575-604 | type and size as given, 100 iterations, 10 warmups, 1 thread, every monitoring flag on, and names that fit their buffers |
| BenchmarkFramework.DefaultConfigDimensions | tests/benchmarks/benchmark_framework.c:585-601 | the custom dimensions are the size's square matrix, and the name is the type name, "_", the size name |
| BenchmarkFramework.DataSize | tests/benchmarks/benchmark_framework.c:96-100 | the data size is the size's buffer size; for SIZE_CUSTOM it is custom_x*custom_y*4 when the uint32 product does not wrap |
| BenchmarkFramework.CustomDataSizeWraps | tests/benchmarks/benchmark_framework.c:96-100 | 65536 x 65536 custom dimensions wrap to a zero-byte buffer |
| BenchmarkFramework.BenchmarkResult.constructor | tests/benchmarks/benchmark_framework.c:130-140 | the sample array has one slot per iteration and no sample is recorded |
| BenchmarkFramework.BenchmarkContext.constructor | tests/benchmarks/benchmark_framework.c:66-149 | a context with its config, data size and an empty result |
| BenchmarkFramework.CreateBenchmarkContext | tests/benchmarks/benchmark_framework.c:66-149 | NULL iff the config is NULL or an allocation or the device open fails |
| BenchmarkFramework.RecordLatencySample | tests/benchmarks/benchmark_framework.c:390-398 | a NULL context or a full array changes nothing; otherwise the sample goes to slot sample_count, which grows by one; earlier samples are unchanged and the count never exceeds the iterations |
| BenchmarkFramework.Framework.constructor | tests/benchmarks/benchmark_framework.c:20 | the framework starts uninitialised |
| BenchmarkFramework.Framework.Init | tests/benchmarks/benchmark_framework.c:27-44 | init returns 0 and sets the flag, and is idempotent |
| BenchmarkFramework.Framework.Cleanup | tests/benchmarks/benchmark_framework.c:46-64 | cleanup clears the flag, and is a no-op when it is clear |
| BenchmarkMain.DefinitionsTable | tests/benchmarks/benchmark_main.c:47-183 | sixteen benchmarks, four per selector flag, and exactly the power-efficiency ones require power monitoring |
| BenchmarkMain.ParseBenchmarkSize | tests/benchmarks/benchmark_main.c:303-312 | "small", "large" and "xlarge" give their sizes, and any other string gives MEDIUM |
| BenchmarkMain.SizeNameRoundTrip | tests/benchmarks/benchmark_main.c:303-312 | every size name parses back to its size |
| BenchmarkMain.ParseSnoc | tests/benchmarks/benchmark_main.c:344-426 | parsing options that do not stop is applying them one after another |
| BenchmarkMain.RunAllFollowsLastSelector | tests/benchmarks/benchmark_main.c:343-371 | run_all ends up set iff it started set and no selector cleared it, or some -a comes after every selector |
| BenchmarkMain.ApplySelectors | tests/benchmarks/benchmark_main.c:348-371 | one option sets the selector it names and keeps the others |
| BenchmarkMain.SelectorsAccumulate | tests/benchmarks/benchmark_main.c:342-366 | after parsing, a category flag is set iff it was set before or its option occurs |
| BenchmarkMain.HelpStops | tests/benchmarks/benchmark_main.c:421-423 | -h sets help and returns 0 at once; later options are not looked at |
| BenchmarkMain.UnknownFails | tests/benchmarks/benchmark_main.c:425-430 | an unknown option makes parsing return -1 |
| BenchmarkMain.ShouldRunBenchmark | tests/benchmarks/benchmark_main.c:441-467 | true whenever run_all holds; a non-empty name selects exactly that name; otherwise the throughput flag selects THROUGHPUT and MEMORY_BANDWIDTH, the other flags select their own category, and nothing else is selected |
| BenchmarkMain.LatencyFlagSelects | tests/benchmarks/benchmark_main.c:353-356 | -l alone selects exactly the four latency benchmarks |
| BenchmarkMain.NoPowerWithoutMonitoring | tests/benchmarks/benchmark_main.c:486-491 | with power monitoring off no power-efficiency benchmark is launched |
| BenchmarkMain.LaunchIterations | tests/benchmarks/benchmark_main.c:498-505 | each launch uses the command line's size, and its iterations when nonzero, else the iterations of the table entry it came from |
| BenchmarkMain.Runner.constructor | tests/benchmarks/benchmark_main.c:212-231 | g_config starts at its initial value |
| BenchmarkMain.Runner.ParseCommandLine | tests/benchmarks/benchmark_main.c:314-435 | the loop leaves the result and g_config that the fold of the options gives |
| BenchmarkMain.Runner.RunBenchmarkSuite | tests/benchmarks/benchmark_main.c:469-547 | the selected, non-skipped benchmarks run in table order; passed + failed equals the number run, and the suite returns 0 iff none failed |
| IntegrationMain.SomeSuiteSelected | tests/integration/integration_test_main.c:172-175 | a successful parse that is not a help request always selects some suite |
| IntegrationMain.NamedSuiteSelected | tests/integration/integration_test_main.c:107-119 | -e and -s set their flag, so a named suite is selected |
| IntegrationMain.ApplyKeeps | tests/integration/integration_test_main.c:107-145 | one option sets the suite flag it names and keeps stored paths below 256 characters |
| IntegrationMain.E2eAlone | tests/integration/integration_test_main.c:107-280 | -e alone runs the end-to-end suite and not the stress suite |
| IntegrationMain.FirstStopDecides | tests/integration/integration_test_main.c:129-168 | the first -h gives 0 with help set, and the first unknown option or non-positive timeout gives -1; later options are not looked at |
| IntegrationMain.PathsFit | tests/integration/integration_test_main.c:137-145 | -o and -l keep at most 255 characters, leaving room for the NUL |
| IntegrationMain.SuitesRun | tests/integration/integration_test_main.c:250-305 | the E2E suite runs iff it is selected and was created; the stress suite runs iff it is selected, was created, and no stop-on-failure return came first |
| IntegrationMain.Verdict | tests/integration/integration_test_main.c:250-305 | the result is 0 iff every suite the run reaches was created and returned 0, and -1 otherwise |
| IntegrationMain.StopKeepsVerdict | tests/integration/integration_test_main.c:263-299 | stop-on-failure never changes the result: 0 iff every selected suite was created and passed |
| IntegrationMain.Runner.constructor | tests/integration/integration_test_main.c:33-45 | g_config starts at its initial value |
| IntegrationMain.Runner.ParseCommandLine | tests/integration/integration_test_main.c:84-178 | the loop and its fix-up leave the result and g_config that the fold of the options gives |
| IntegrationMain.Runner.RunTestSuites | tests/integration/integration_test_main.c:250-305 | the suites run and the result are SuitesRun's and Verdict's |
| RunTests.StatusOf | scripts/run_tests.py:125-131 | PASS iff the exit code is 0, FAIL otherwise |
| RunTests.CategoryTests | scripts/run_tests.py:110-140 | one test per category in order, passing iff `make test-<category>` exits 0 |
| RunTests.UnitTests | scripts/run_tests.py:83-160 | a failed build gives exactly one FAIL test carrying stderr; otherwise one test per category, then coverage when it is enabled |
| RunTests.Dashed | scripts/run_tests.py:199 | the name with every '_' replaced by '-' |
| RunTests.IntegrationCommandAsWritten | scripts/run_tests.py:198-201 | the program, "--" + the dashed suite name, and --software-only iff there is no hardware |
| RunTests.Candidates | tests/integration/integration_test_main.c:86-100 | exactly the runner's long flags whose names start with the given word |
| RunTests.Lookup | tests/integration/integration_test_main.c:86-100 | the flag named exactly by the word, and None iff there is none |
| RunTests.RunnerOptions | tests/integration/integration_test_main.c:105 | one option per command word after the program name |
| RunTests.NoFlagStartsWith | tests/integration/integration_test_main.c:86-100 | "e2e-tests" and "stress-tests" start no long option name of the runner |
| RunTests.DashedNames | scripts/run_tests.py:189-199 | the suite names dash to "e2e-tests" and "stress-tests" |
| RunTests.IntegrationCommandRejected | scripts/run_tests.py:198-201 | the runner's parse of either command as written returns -1, with or without hardware |
| RunTests.IntegrationCommand | scripts/run_tests.py:198-201 | the corrected command is the program and one option |
| RunTests.IntegrationCommandAccepted | scripts/run_tests.py:198-201 | the runner accepts the corrected command and selects exactly the suite it names |
| RunTests.IntegrationTests | scripts/run_tests.py:162-218 | a failed build gives one FAIL test; otherwise one test per suite, passing iff its command exits 0 |
| RunTests.FindSimulator | scripts/run_tests.py:229-236 | the first of vivado, vsim and vcs on the path, and None iff none is |
| RunTests.SimTargets | scripts/run_tests.py:250-255 | test-quick first, and test-full last iff the full simulation is requested |
| RunTests.SimulationTests | scripts/run_tests.py:221-275 | no simulator gives a single SKIP test; otherwise one test per target, passing iff `make target SIM=tool` exits 0 |
| RunTests.SelectSuites | scripts/run_tests.py:596-609 | each suite is run iff its key is set, defaulting to on for unit, static and integration and off for simulation and performance, in the script's order |
| RunTests.DefaultSelection | scripts/run_tests.py:596-609 | an empty configuration runs the unit, static-analysis and integration suites |
| RunTests.BucketsPartition | scripts/run_tests.py:424-430 | each test falls in exactly one bucket, or none for an unknown status |
| RunTests.SummaryBuckets | scripts/run_tests.py:400-438 | the buckets never exceed the total; failed is 0 iff no test failed or erred; with known statuses the buckets add up to the total |
| RunTests.RecordOf | scripts/run_tests.py:414-421 | a record keeps name, status and message, and cuts output and error output to their first 1000 characters |
| RunTests.TestRecords | scripts/run_tests.py:414-422 | one record per test, in order |
| RunTests.RecordsOf | scripts/run_tests.py:405-432 | one suite record per suite, in order |
| RunTests.CountStep | scripts/run_tests.py:424-430 | counting one more test adds 1 to its own bucket only |
| RunTests.GenerateReports | scripts/run_tests.py:382-438 | the nested loops build the records of every suite and the summary counts |
| RunTests.RecordTests | scripts/run_tests.py:413-429 | the per-test loop records every test of a suite with its outputs cut to 1000 characters, and adds the suite's tests to the total and to the PASS, FAIL-or-ERROR and SKIP counters |
| RunTests.GenerateJunitXml | scripts/run_tests.py:550-587 | the appended string is the JUnit document of the report |
| RunTests.AppendTestcases | scripts/run_tests.py:569-582 | the testcase loop appends the testcase elements in order |
| RunTests.TestcaseClosed | scripts/run_tests.py:569-582 | PASS is self-closing; FAIL, ERROR and SKIP end with a closing tag; another status leaves the element open |
| RunTests.TestcaseElements | scripts/run_tests.py:569-582 | a FAIL or ERROR testcase contains `<failure message="…">` with the test's message, then its error output, then `</failure>`; a SKIP testcase contains `<skipped message="…"/>` with the message |
| RunTests.TestcaseNoStrayElements | scripts/run_tests.py:569-582 | the script does not escape attribute text. So when no name, duration or message holds a '<', PASS and SKIP testcases contain no `<failure` and PASS testcases no `<skipped` |
| RunTests.RecordCounts | scripts/run_tests.py:560-561 | a record is counted as its test is |
| RunTests.SuiteAttributesAddUp | scripts/run_tests.py:552-561 | the per-suite failures and skipped attributes add up to the summary totals on the root element |
| RunTests.Orchestrator.constructor | scripts/run_tests.py:45-49 | an orchestrator with its configuration and no results |
| RunTests.Orchestrator.RunAllTests | scripts/run_tests.py:589-639 | the selected suites' results are appended in order, the report is built from them, and success holds iff no test failed |
| RunTests.Orchestrator.Collect | scripts/run_tests.py:626-633 | the sequential loop runs the selected suites in order and appends each result produced; a suite that raises is dropped |

## Left out

- NpuLib.Alloc, NpuLib.CopyTensorToBuffer, NpuLib.CopyTensorFromBuffer, NpuLib.StageOperands: these use the corrected test Fits, not the wrapping `size_t` sum of lines 113, 446 and 463. For a size within 2^20 of 2^64 the code hands out or copies a region past the buffer and wraps `buffer_offset`, while the model reports NULL or MEMORY and keeps the offset. FitsAsWritten models the code's own test.
- Tensor data that points into the staging buffer (memory from npu_alloc) is not modelled: a tensor's bytes are a value. With such aliasing, the instruction copy of line 177 would also change the tensor's data. No caller shown passes such a tensor.
- PCI and kernel plumbing in probe and remove: BAR mapping, DMA mask, character device and class creation, the error-unwinding ladder, and module init and exit. Only the register writes and the DMA buffer size are kept.
- Concurrency and scheduling. The blocking `wait_event_interruptible` is a guarded step, the driver mutex is a parameter, and `wake_up` is not modelled. Also left out: the stress and scalability worker threads, the power-monitor thread, the timeout thread of `execute_test_with_timeout` and the Python parallel mode.
- Floating point: latency statistics, throughput, efficiency and power metrics, performance timing, and the `:.3f` rendering of durations (durations are carried as text).
- The managed-buffer API (`npu_buffer_*`, memory statistics, thermal and performance ioctls). It is declared but has no implementation to follow.
- Randomness: PATTERN_RANDOM and benchmark random data take the `rand()` stream as a parameter.
- getopt_long itself. The C runners receive the options it yields, with the `atoi` value inside. The option words of the integration command are read only as far as RunTests needs them.
- RunTests.RunnerOption: reads only the runner's value-less long options, and treats an ambiguous abbreviation as unknown.
- Subprocesses and working directories: each command's result is a function parameter. Static analysis and performance suites are results that `run` supplies. An exception raised by a suite is `run` giving None (the suite is dropped).
- File and report writing: the HTML report, the JSON dump, and the timestamp, configuration and success rate stored in the JSON report.
- Printing, usage text, signal handlers, system-health and `/proc/meminfo` checks.
- The device's own behaviour: it computes nothing in this model. STATUS changes only through NpuDriver.NpuDevice.DeviceReports.
- NpuDriver.NpuDevice.Read: a partial `copy_to_user` is reported as -EFAULT only when the user buffer is too small; bytes that reached user memory before a fault are not modelled.
- RunTests.IntegrationTests: does not pass `hardware_available` to the suite command. The corrected command drops `--software-only`, which the runner does not accept.
- The benchmark runner's category and size values are datatypes; their enum declarations are not part of this model.
- Test and benchmark bodies: what each returns is a parameter.

## Findings

| source | as written | input that shows it | evidently intended | confidence | as-written member | corrected member |
|---|---|---|---|---|---|---|
| software/userspace/fpga_npu_lib.c:113, 446, 463 | the bound test `offset + size > buffer_size` is computed in 64-bit size_t, so the sum wraps | npu_alloc with offset 16 and size 2^64-16: the sum wraps to 0, the test passes, and a region far past the 1 MiB buffer is handed out. Lines 446 and 463 wrap the same way, but only for a hand-built descriptor of about 2^64 bytes, since npu_create_tensor yields sizes below 2^34 | reject every region that does not lie in `[0, buffer_size)` | not executed | NpuLib.FitsAsWritten (NpuLib.FitsAsWrittenAdmitsHugeSize) | NpuLib.Fits (NpuLib.AllocStep, NpuLib.CarveDisjoint) |
| scripts/run_tests.py:198-201 | the integration command is `--e2e-tests` or `--stress-tests`, plus `--software-only` without hardware | suite `e2e_tests`: the runner's long options are `e2e` and `stress`, no name starts with `e2e-tests`, so getopt reports an unknown option and parsing returns -1 | run the runner with the flag that selects the suite | not executed | RunTests.IntegrationCommandAsWritten (RunTests.IntegrationCommandRejected) | RunTests.IntegrationCommand (RunTests.IntegrationCommandAccepted) |
