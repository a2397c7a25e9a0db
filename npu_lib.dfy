/**
 * The user-space NPU library: a context owning one private 1 MiB staging buffer with a
 * bump offset, tensor descriptors, the 36-byte instruction record, and the operations that
 * stage tensors, write instructions to the device file and copy results back.
 *
 * The device file is represented by the sequence of calls made on it (`calls`); what
 * write() and ioctl() return is supplied by the caller as a parameter.
 */
module NpuLib {
  import opened Common

  const MAX_BUFFER_SIZE: nat := 1024 * 1024
  /** sizeof(npu_instruction_t): nine 4-byte fields. */
  const INSTRUCTION_SIZE: nat := 36

  // Error codes
  const NPU_SUCCESS: int := 0
  const NPU_ERROR_INIT: int := -1
  const NPU_ERROR_DEVICE: int := -2
  const NPU_ERROR_MEMORY: int := -3
  const NPU_ERROR_TIMEOUT: int := -4
  const NPU_ERROR_INVALID: int := -5

  // npu_operation_t
  const NPU_OP_ADD: bv32 := 1
  const NPU_OP_SUB: bv32 := 2
  const NPU_OP_MUL: bv32 := 3
  const NPU_OP_MAC: bv32 := 4
  const NPU_OP_CONV: bv32 := 5
  const NPU_OP_MATMUL: bv32 := 6

  // npu_dtype_t
  const NPU_DTYPE_INT8: int := 0
  const NPU_DTYPE_INT16: int := 1
  const NPU_DTYPE_INT32: int := 2
  const NPU_DTYPE_FLOAT32: int := 3

  /** The C conversion of an integer to uint32_t: keep the low 32 bits. */
  function U32(x: int): bv32
  {
    (x % TWO_32) as bv32
  }

  // ---------------------------------------------------------------------------------------
  // Tensors

  /** dims[0..3] of a descriptor, in NCHW order. */
  datatype Dims = Dims(n: u32, c: u32, h: u32, w: u32)

  /** npu_tensor_t. `data` is the byte string the descriptor's data pointer designates. */
  datatype Tensor = Tensor(data: seq<bv8>, size: u64, dims: Dims, dtype: int)

  /** The descriptor's own promise: its data pointer designates at least `size` bytes. */
  predicate Covers(t: Tensor)
  {
    t.size <= |t.data|
  }

  /** The `size` bytes a memcpy from the descriptor's data reads. */
  function Bytes(t: Tensor): (r: seq<bv8>)
    requires Covers(t)
    ensures |r| == t.size
  {
    t.data[..t.size]
  }

  function ElementSize(dtype: int): (r: nat)
    ensures r == 1 || r == 2 || r == 4
    ensures dtype == NPU_DTYPE_INT16 ==> r == 2
    ensures dtype == NPU_DTYPE_INT32 || dtype == NPU_DTYPE_FLOAT32 ==> r == 4
    ensures dtype != NPU_DTYPE_INT16 && dtype != NPU_DTYPE_INT32 && dtype != NPU_DTYPE_FLOAT32 ==> r == 1
  {
    if dtype == NPU_DTYPE_INT8 then 1
    else if dtype == NPU_DTYPE_INT16 then 2
    else if dtype == NPU_DTYPE_INT32 then 4
    else if dtype == NPU_DTYPE_FLOAT32 then 4
    else 1
  }

  /** The uint32_t element count n*c*h*w, wrapped at 2^32. */
  function ElementCount(n: u32, c: u32, h: u32, w: u32): (r: u32)
    ensures n == 0 || c == 0 || h == 0 || w == 0 ==> r == 0
    ensures n * c * h * w < TWO_32 ==> r == n * c * h * w
  {
    MulNat(n, c);
    MulNat(n * c, h);
    MulNat(n * c * h, w);
    var p := n * c * h * w;
    if p < TWO_32 then ModInRange(p, TWO_32); p else p % TWO_32
  }

  /** npu_create_tensor. The element count is a uint32_t product and wraps; the
      multiplication by the element size is done in size_t and cannot overflow. */
  function CreateTensor(data: seq<bv8>, n: u32, c: u32, h: u32, w: u32, dtype: int): (t: Tensor)
    ensures t.data == data && t.dims == Dims(n, c, h, w) && t.dtype == dtype
    ensures n == 0 || c == 0 || h == 0 || w == 0 ==> t.size == 0
    ensures n * c * h * w < TWO_32 ==> t.size == n * c * h * w * ElementSize(dtype)
  {
    var count := ElementCount(n, c, h, w);
    var e := ElementSize(dtype);
    Tensor(data, count * e, Dims(n, c, h, w), dtype)
  }

  /** The size of the FLOAT32 tensor 2x3x2x2 is 96 bytes. */
  lemma CreateTensorExample(data: seq<bv8>)
    ensures CreateTensor(data, 2, 3, 2, 2, NPU_DTYPE_FLOAT32).size == 96
    ensures CreateTensor(data, 0, 3, 2, 2, NPU_DTYPE_INT16).size == 0
  {
  }

  // ---------------------------------------------------------------------------------------
  // Instructions and their memory image

  type Params = p: seq<bv32> | |p| == 4 witness [0, 0, 0, 0]

  /** npu_instruction_t: op (an enum of 4 bytes), four addresses/sizes, four parameters. */
  datatype Instruction = Instruction(op: bv32, src1Addr: bv32, src2Addr: bv32, dstAddr: bv32,
                                     size: bv32, params: Params)

  /** The nine 32-bit fields of an instruction in declaration order. */
  function Fields(i: Instruction): (ws: seq<bv32>)
    ensures |ws| == 9
  {
    [i.op, i.src1Addr, i.src2Addr, i.dstAddr, i.size, i.params[0], i.params[1], i.params[2], i.params[3]]
  }

  /** A 32-bit word as the four bytes it occupies in memory (little-endian host). */
  function WordBytes(w: bv32): (r: seq<bv8>)
    ensures |r| == 4
  {
    [(w & 0xFF) as bv8, ((w >> 8) & 0xFF) as bv8, ((w >> 16) & 0xFF) as bv8, ((w >> 24) & 0xFF) as bv8]
  }

  /** The 32-bit word stored in b[at..at+4]. */
  function WordAt(b: seq<bv8>, at: nat): bv32
    requires at + 4 <= |b|
  {
    (b[at] as bv32) | ((b[at + 1] as bv32) << 8) | ((b[at + 2] as bv32) << 16) | ((b[at + 3] as bv32) << 24)
  }

  lemma WordRoundTrip(w: bv32, b: seq<bv8>)
    ensures WordAt(WordBytes(w), 0) == w
    ensures |b| == 4 ==> WordBytes(WordAt(b, 0)) == b
  {
  }

  /** The memory image of a sequence of 32-bit words. */
  function WordsBytes(ws: seq<bv32>): (r: seq<bv8>)
    ensures |r| == 4 * |ws|
  {
    if ws == [] then [] else WordsBytes(ws[..|ws| - 1]) + WordBytes(ws[|ws| - 1])
  }

  /** Word k of a word sequence occupies bytes [4k, 4k+4) of its image. */
  lemma {:induction false} WordsBytesAt(ws: seq<bv32>, k: nat)
    requires k < |ws|
    ensures WordAt(WordsBytes(ws), 4 * k) == ws[k]
  {
    var init := ws[..|ws| - 1];
    var r := WordsBytes(ws);
    assert r == WordsBytes(init) + WordBytes(ws[|ws| - 1]);
    if k < |ws| - 1 {
      WordsBytesAt(init, k);
      assert WordAt(r, 4 * k) == WordAt(WordsBytes(init), 4 * k);
    } else {
      WordRoundTrip(ws[k], []);
      assert r[4 * k..4 * k + 4] == WordBytes(ws[k]);
      assert WordAt(r, 4 * k) == WordAt(r[4 * k..4 * k + 4], 0);
    }
  }

  /** The 36 bytes `memcpy(buffer, inst, sizeof(npu_instruction_t))` copies. */
  function EncodeInstruction(i: Instruction): (r: seq<bv8>)
    ensures |r| == INSTRUCTION_SIZE
  {
    WordsBytes(Fields(i))
  }

  /** How the device reads a 36-byte record. */
  function DecodeInstruction(b: seq<bv8>): Instruction
    requires |b| == INSTRUCTION_SIZE
  {
    Instruction(WordAt(b, 0), WordAt(b, 4), WordAt(b, 8), WordAt(b, 12), WordAt(b, 16),
                [WordAt(b, 20), WordAt(b, 24), WordAt(b, 28), WordAt(b, 32)])
  }

  /** The device sees exactly the fields the library filled in. */
  lemma DecodeEncode(i: Instruction)
    ensures DecodeInstruction(EncodeInstruction(i)) == i
  {
    var ws := Fields(i);
    WordsBytesAt(ws, 0);
    WordsBytesAt(ws, 1);
    WordsBytesAt(ws, 2);
    WordsBytesAt(ws, 3);
    WordsBytesAt(ws, 4);
    WordsBytesAt(ws, 5);
    WordsBytesAt(ws, 6);
    WordsBytesAt(ws, 7);
    WordsBytesAt(ws, 8);
    var d := DecodeInstruction(EncodeInstruction(i));
    assert d.params == [ws[5], ws[6], ws[7], ws[8]];
  }

  /** The memory image of an array of instructions, as memcpy reads it. */
  function EncodeBatch(s: seq<Instruction>): (r: seq<bv8>)
    ensures |r| == INSTRUCTION_SIZE * |s|
  {
    if s == [] then [] else EncodeBatch(s[..|s| - 1]) + EncodeInstruction(s[|s| - 1])
  }

  /** Entry k of an instruction array occupies bytes [36k, 36k+36) of its image. */
  lemma {:induction false} EncodeBatchAt(s: seq<Instruction>, k: nat)
    requires k < |s|
    ensures EncodeBatch(s)[INSTRUCTION_SIZE * k..INSTRUCTION_SIZE * (k + 1)] == EncodeInstruction(s[k])
  {
    var init := s[..|s| - 1];
    assert EncodeBatch(s) == EncodeBatch(init) + EncodeInstruction(s[|s| - 1]);
    if k < |s| - 1 {
      EncodeBatchAt(init, k);
      assert init[k] == s[k];
    }
  }

  // ---------------------------------------------------------------------------------------
  // Regions of the staging buffer

  /** The bytes of s after copying src over s[at..at+|src|]. */
  function Splice(s: seq<bv8>, at: nat, src: seq<bv8>): (r: seq<bv8>)
    requires at + |src| <= |s|
    ensures |r| == |s|
    ensures forall k :: 0 <= k < |s| ==> r[k] == if at <= k < at + |src| then src[k - at] else s[k]
  {
    s[..at] + src + s[at + |src|..]
  }

  /** Reading a region back right after copying into it gives the copied bytes. */
  lemma SpliceReadBack(s: seq<bv8>, at: nat, src: seq<bv8>)
    requires at + |src| <= |s|
    ensures Splice(s, at, src)[at..at + |src|] == src
  {
    var r := Splice(s, at, src);
    assert forall k :: 0 <= k < |src| ==> r[at..at + |src|][k] == src[k];
  }

  /** Copying into one region leaves every disjoint region as it was. */
  lemma SpliceFrame(s: seq<bv8>, at: nat, src: seq<bv8>, lo: nat, hi: nat)
    requires at + |src| <= |s| && lo <= hi <= |s|
    requires hi <= at || at + |src| <= lo
    ensures Splice(s, at, src)[lo..hi] == s[lo..hi]
  {
    var r := Splice(s, at, src);
    assert forall k :: 0 <= k < hi - lo ==> r[lo..hi][k] == r[lo + k];
  }

  /** The bound test of npu_alloc (line 113), copy_tensor_to_buffer (line 446) and
      copy_tensor_from_buffer (line 463) as the code computes it: the uint32_t offset is
      promoted to size_t and the sum wraps at 2^64. */
  function FitsAsWritten(offset: u32, size: u64, bufferSize: u64): bool
  {
    (offset + size) % TWO_64 <= bufferSize
  }

  /** The intended bound test: the region [offset, offset+size) lies inside the buffer. */
  function Fits(offset: int, size: int, bufferSize: int): bool
  {
    offset + size <= bufferSize
  }

  /** A size within 16 of 2^64 passes the test as written: the region is reported as
      fitting though it runs 2^64 - 16 bytes past the start of a 1 MiB buffer. */
  lemma FitsAsWrittenAdmitsHugeSize()
    ensures FitsAsWritten(16, TWO_64 - 16, MAX_BUFFER_SIZE)
    ensures !Fits(16, TWO_64 - 16, MAX_BUFFER_SIZE)
  {
  }

  /** The two tests agree for every size that leaves room for the buffer below 2^64. */
  lemma FitsAgrees(offset: u32, size: u64)
    requires offset <= MAX_BUFFER_SIZE && size <= TWO_64 - 1 - 2 * MAX_BUFFER_SIZE
    ensures FitsAsWritten(offset, size, MAX_BUFFER_SIZE) == Fits(offset, size, MAX_BUFFER_SIZE)
  {
  }

  /** One npu_alloc on an offset: the returned buffer offset (None for NULL) and the new
      buffer_offset. */
  function AllocStep(offset: u32, size: u64, bufferSize: nat): (r: (Option<nat>, u32))
    requires offset <= bufferSize <= MAX_BUFFER_SIZE
    ensures r.0.Some? <==> size > 0 && Fits(offset, size, bufferSize)
    ensures r.0.Some? ==> r.0.value == offset && r.1 == offset + size
    ensures r.0.None? ==> r.1 == offset
    ensures r.1 <= bufferSize
  {
    if size == 0 || !Fits(offset, size, bufferSize) then (None, offset)
    else (Some(offset), (offset + size) % TWO_32)
  }

  datatype Region = Region(start: nat, len: nat)

  /** The regions handed out by a sequence of npu_alloc calls starting at `offset`. */
  function Carve(offset: u32, sizes: seq<u64>, bufferSize: nat): seq<Region>
    requires offset <= bufferSize <= MAX_BUFFER_SIZE
    decreases |sizes|
  {
    if sizes == [] then []
    else
      var (p, next) := AllocStep(offset, sizes[0], bufferSize);
      (if p.Some? then [Region(p.value, sizes[0])] else []) + Carve(next, sizes[1..], bufferSize)
  }

  /** Every region lies in [lo, hi) and is non-empty. */
  predicate RegionsWithin(rs: seq<Region>, lo: nat, hi: nat)
  {
    forall i :: 0 <= i < |rs| ==> lo <= rs[i].start && 0 < rs[i].len && rs[i].start + rs[i].len <= hi
  }

  /** Each region ends before the next one starts. */
  predicate RegionsAscending(rs: seq<Region>)
  {
    forall i, j :: 0 <= i < j < |rs| ==> rs[i].start + rs[i].len <= rs[j].start
  }

  /** Successive successful allocations get non-empty, in-bounds, ascending and pairwise
      disjoint regions, all at or above the starting offset. */
  lemma {:induction false} CarveDisjoint(offset: u32, sizes: seq<u64>, bufferSize: nat)
    requires offset <= bufferSize <= MAX_BUFFER_SIZE
    ensures RegionsWithin(Carve(offset, sizes, bufferSize), offset, bufferSize)
    ensures RegionsAscending(Carve(offset, sizes, bufferSize))
    decreases |sizes|
  {
    if sizes != [] {
      var r := AllocStep(offset, sizes[0], bufferSize);
      var tail := Carve(r.1, sizes[1..], bufferSize);
      CarveDisjoint(r.1, sizes[1..], bufferSize);
      var head := if r.0.Some? then [Region(r.0.value, sizes[0])] else [];
      assert Carve(offset, sizes, bufferSize) == head + tail;
      assert RegionsWithin(head, offset, r.1);
    }
  }

  // ---------------------------------------------------------------------------------------
  // The context

  /** A call made on the device file descriptor. */
  datatype DeviceCall = Write(bytes: seq<bv8>) | Ioctl(cmd: int)

  /** struct npu_context. */
  class NpuContext {
    var buffer: array<bv8>
    var bufferSize: nat
    var bufferOffset: u32
    /** Every write() and ioctl() issued on the device file, oldest first. */
    var calls: seq<DeviceCall>

    ghost predicate Valid()
      reads this
    {
      buffer.Length == bufferSize == MAX_BUFFER_SIZE && bufferOffset <= bufferSize
    }

    /** The context npu_init builds once the device is open and the buffer allocated. */
    constructor ()
      ensures Valid() && fresh(buffer) && bufferOffset == 0 && calls == []
    {
      buffer := new bv8[MAX_BUFFER_SIZE];
      bufferSize := MAX_BUFFER_SIZE;
      bufferOffset := 0;
      calls := [];
    }
  }

  /** What a call may change: the context and its buffer. */
  function Footprint(ctx: NpuContext?): set<object>
    reads ctx
  {
    if ctx == null then {} else {ctx as object, ctx.buffer as object}
  }

  /** npu_init: NULL when the context allocation, the open of the device or the buffer
      allocation fails. */
  method Init(contextAllocated: bool, deviceOpened: bool, bufferAllocated: bool) returns (ctx: NpuContext?)
    ensures (ctx != null) == (contextAllocated && deviceOpened && bufferAllocated)
    ensures ctx != null ==> fresh(ctx) && fresh(ctx.buffer) && ctx.Valid() && ctx.bufferOffset == 0 && ctx.calls == []
  {
    if !contextAllocated || !deviceOpened || !bufferAllocated {
      return null;
    }
    ctx := new NpuContext();
  }

  /** npu_cleanup: INVALID for a NULL handle, SUCCESS otherwise. */
  method Cleanup(ctx: NpuContext?) returns (ret: int)
    ensures ret == (if ctx == null then NPU_ERROR_INVALID else NPU_SUCCESS)
  {
    if ctx == null {
      return NPU_ERROR_INVALID;
    }
    ret := NPU_SUCCESS;
  }

  /** npu_alloc: the buffer offset of the new region, or None for NULL. */
  method Alloc(ctx: NpuContext?, size: u64) returns (ptr: Option<nat>)
    requires ctx != null ==> ctx.Valid()
    modifies ctx
    ensures ctx == null ==> ptr == None
    ensures ctx != null ==> ctx.Valid() && ctx.buffer == old(ctx.buffer) && ctx.calls == old(ctx.calls)
    ensures ctx != null ==> (ptr, ctx.bufferOffset) == AllocStep(old(ctx.bufferOffset), size, ctx.bufferSize)
  {
    if ctx == null || size == 0 {
      return None;
    }
    if !Fits(ctx.bufferOffset, size, ctx.bufferSize) {
      return None;
    }
    ptr := Some(ctx.bufferOffset as nat);
    ctx.bufferOffset := (ctx.bufferOffset + size) % TWO_32;
  }

  /** npu_free: nothing is tracked per allocation, so nothing changes. */
  method Free(ctx: NpuContext?, ptr: Option<nat>)
    requires ctx != null ==> ctx.Valid()
    ensures ctx != null ==> ctx.Valid()
  {
  }

  /** memcpy(dst + at, src, |src|), byte by byte. */
  method CopyInto(dst: array<bv8>, at: nat, src: seq<bv8>)
    requires at + |src| <= dst.Length
    modifies dst
    ensures dst[..] == Splice(old(dst[..]), at, src)
  {
    var i := 0;
    while i < |src|
      invariant 0 <= i <= |src|
      invariant forall k :: 0 <= k < dst.Length ==> dst[k] == if at <= k < at + i then src[k - at] else old(dst[k])
    {
      dst[at + i] := src[i];
      i := i + 1;
    }
  }

  /** copy_tensor_to_buffer: stage a tensor at the current offset. `offsetPtr` is false for a
      NULL offset pointer; `offset` is what the call stores through it. */
  method CopyTensorToBuffer(ctx: NpuContext?, tensor: Option<Tensor>, offsetPtr: bool)
    returns (ret: int, offset: Option<u32>)
    requires ctx != null ==> ctx.Valid()
    requires tensor.Some? ==> Covers(tensor.value)
    modifies Footprint(ctx)
    ensures ctx != null ==> ctx.Valid() && ctx.buffer == old(ctx.buffer) && ctx.calls == old(ctx.calls)
    ensures ctx == null || tensor.None? || !offsetPtr ==>
      ret == NPU_ERROR_INVALID && offset == None
      && (ctx != null ==> ctx.bufferOffset == old(ctx.bufferOffset) && ctx.buffer[..] == old(ctx.buffer[..]))
    ensures ctx != null && tensor.Some? && offsetPtr ==>
      var t, start := tensor.value, old(ctx.bufferOffset);
      if !Fits(start, t.size, ctx.bufferSize) then
        ret == NPU_ERROR_MEMORY && offset == None
        && ctx.bufferOffset == start && ctx.buffer[..] == old(ctx.buffer[..])
      else
        ret == NPU_SUCCESS && offset == Some(start)
        && ctx.bufferOffset == start + t.size
        && ctx.buffer[..] == Splice(old(ctx.buffer[..]), start, Bytes(t))
  {
    if ctx == null || tensor.None? || !offsetPtr {
      return NPU_ERROR_INVALID, None;
    }
    var t := tensor.value;
    if !Fits(ctx.bufferOffset, t.size, ctx.bufferSize) {
      return NPU_ERROR_MEMORY, None;
    }
    offset := Some(ctx.bufferOffset);
    CopyInto(ctx.buffer, ctx.bufferOffset, Bytes(t));
    ctx.bufferOffset := (ctx.bufferOffset + t.size) % TWO_32;
    ret := NPU_SUCCESS;
  }

  /** copy_tensor_from_buffer: `data` is what the tensor's data bytes hold afterwards. */
  method CopyTensorFromBuffer(ctx: NpuContext?, tensor: Option<Tensor>, offset: u32)
    returns (ret: int, data: seq<bv8>)
    requires ctx != null ==> ctx.Valid()
    requires tensor.Some? ==> Covers(tensor.value)
    ensures tensor.None? ==> data == []
    ensures ctx == null || tensor.None? ==> ret == NPU_ERROR_INVALID && (tensor.Some? ==> data == tensor.value.data)
    ensures ctx != null && tensor.Some? ==>
      var t := tensor.value;
      if !Fits(offset, t.size, ctx.bufferSize) then ret == NPU_ERROR_MEMORY && data == t.data
      else ret == NPU_SUCCESS && data == Splice(t.data, 0, ctx.buffer[offset..offset + t.size])
  {
    if tensor.None? {
      return NPU_ERROR_INVALID, [];
    }
    var t := tensor.value;
    if ctx == null {
      return NPU_ERROR_INVALID, t.data;
    }
    if !Fits(offset, t.size, ctx.bufferSize) {
      return NPU_ERROR_MEMORY, t.data;
    }
    data := Splice(t.data, 0, ctx.buffer[offset..offset + t.size]);
    ret := NPU_SUCCESS;
  }

  /** Copying a tensor in and reading the same region back, with nothing in between,
      returns the tensor's bytes unchanged. */
  lemma CopyRoundTrip(buf: seq<bv8>, at: nat, t: Tensor)
    requires Covers(t) && at + t.size <= |buf|
    ensures Splice(t.data, 0, Splice(buf, at, Bytes(t))[at..at + t.size]) == t.data
  {
    SpliceReadBack(buf, at, Bytes(t));
    SpliceOwnPrefix(t.data, t.size);
  }

  /** npu_execute_instruction: the instruction is copied over the first 36 bytes of the
      staging buffer and those bytes are written to the device. `written` is what write()
      returns. */
  method ExecuteInstruction(ctx: NpuContext?, inst: Option<Instruction>, written: int) returns (ret: int)
    requires ctx != null ==> ctx.Valid()
    modifies Footprint(ctx)
    ensures ctx != null ==> ctx.Valid() && ctx.buffer == old(ctx.buffer) && ctx.bufferOffset == old(ctx.bufferOffset)
    ensures ctx == null || inst.None? ==>
      ret == NPU_ERROR_INVALID && (ctx != null ==> ctx.buffer[..] == old(ctx.buffer[..]) && ctx.calls == old(ctx.calls))
    ensures ctx != null && inst.Some? ==>
      var e := EncodeInstruction(inst.value);
      ctx.buffer[..] == Splice(old(ctx.buffer[..]), 0, e)
      && ctx.calls == old(ctx.calls) + [Write(e)]
      && ret == (if written == INSTRUCTION_SIZE then NPU_SUCCESS else NPU_ERROR_DEVICE)
  {
    if ctx == null || inst.None? {
      return NPU_ERROR_INVALID;
    }
    CopyInto(ctx.buffer, 0, EncodeInstruction(inst.value));
    SpliceReadBack(old(ctx.buffer[..]), 0, EncodeInstruction(inst.value));
    ctx.calls := ctx.calls + [Write(ctx.buffer[..INSTRUCTION_SIZE])];
    ret := if written == INSTRUCTION_SIZE then NPU_SUCCESS else NPU_ERROR_DEVICE;
  }

  /** batch_size = count * sizeof(npu_instruction_t), a size_t product that wraps. */
  function BatchSize(count: u64): (r: u64)
    ensures count * INSTRUCTION_SIZE < TWO_64 ==> r == count * INSTRUCTION_SIZE
  {
    (count * INSTRUCTION_SIZE) % TWO_64
  }

  /** A count of 2^62 instructions wraps to a batch of 0 bytes, which passes the size test. */
  lemma BatchSizeWraps()
    ensures BatchSize(TWO_64 / 4) == 0
  {
  }

  /** npu_execute_batch. The memcpy reads only BatchSize(count) bytes of the array, which
      must lie in it. */
  method ExecuteBatch(ctx: NpuContext?, instructions: Option<seq<Instruction>>, count: u64, written: int)
    returns (ret: int)
    requires ctx != null ==> ctx.Valid()
    requires ctx != null && instructions.Some? && count != 0 && BatchSize(count) <= MAX_BUFFER_SIZE
             ==> BatchSize(count) <= INSTRUCTION_SIZE * |instructions.value|
    modifies Footprint(ctx)
    ensures ctx != null ==> ctx.Valid() && ctx.buffer == old(ctx.buffer) && ctx.bufferOffset == old(ctx.bufferOffset)
    ensures ctx == null || instructions.None? || count == 0 ==>
      ret == NPU_ERROR_INVALID && (ctx != null ==> ctx.buffer[..] == old(ctx.buffer[..]) && ctx.calls == old(ctx.calls))
    ensures ctx != null && instructions.Some? && count != 0 ==>
      if BatchSize(count) > ctx.bufferSize then
        ret == NPU_ERROR_MEMORY && ctx.buffer[..] == old(ctx.buffer[..]) && ctx.calls == old(ctx.calls)
      else
        var image := EncodeBatch(instructions.value)[..BatchSize(count)];
        ctx.buffer[..] == Splice(old(ctx.buffer[..]), 0, image)
        && ctx.calls == old(ctx.calls) + [Write(image)]
        && ret == (if written == BatchSize(count) then NPU_SUCCESS else NPU_ERROR_DEVICE)
  {
    var batchSize := BatchSize(count);
    if ctx == null || instructions.None? || count == 0 {
      return NPU_ERROR_INVALID;
    }
    if batchSize > ctx.bufferSize {
      return NPU_ERROR_MEMORY;
    }
    var image := EncodeBatch(instructions.value)[..batchSize];
    CopyInto(ctx.buffer, 0, image);
    SpliceReadBack(old(ctx.buffer[..]), 0, image);
    ctx.calls := ctx.calls + [Write(ctx.buffer[..batchSize])];
    ret := if written == batchSize then NPU_SUCCESS else NPU_ERROR_DEVICE;
  }

  /** For a count whose byte size does not wrap, the device receives the count instructions
      in order, each decoding to the caller's record. */
  lemma BatchImageDecodes(s: seq<Instruction>, count: u64, k: nat)
    requires count <= |s| && count * INSTRUCTION_SIZE < TWO_64 && k < count
    ensures var image := EncodeBatch(s)[..BatchSize(count)];
      |image| == INSTRUCTION_SIZE * count
      && DecodeInstruction(image[INSTRUCTION_SIZE * k..INSTRUCTION_SIZE * (k + 1)]) == s[k]
  {
    var image := EncodeBatch(s)[..BatchSize(count)];
    EncodeBatchAt(s, k);
    assert image[INSTRUCTION_SIZE * k..INSTRUCTION_SIZE * (k + 1)]
        == EncodeBatch(s)[INSTRUCTION_SIZE * k..INSTRUCTION_SIZE * (k + 1)];
    DecodeEncode(s[k]);
  }

  /** npu_wait_completion: one ioctl(fd, 1); `ioctlResult` is what it returns. The timeout
      argument is not used. */
  method WaitCompletion(ctx: NpuContext?, timeoutMs: u32, ioctlResult: int) returns (ret: int)
    modifies ctx
    ensures ctx == null ==> ret == NPU_ERROR_INVALID
    ensures ctx != null ==>
      ctx.calls == old(ctx.calls) + [Ioctl(1)]
      && ctx.bufferOffset == old(ctx.bufferOffset) && ctx.buffer == old(ctx.buffer)
      && ctx.bufferSize == old(ctx.bufferSize)
      && ret == (if ioctlResult < 0 then NPU_ERROR_DEVICE else NPU_SUCCESS)
  {
    if ctx == null {
      return NPU_ERROR_INVALID;
    }
    ctx.calls := ctx.calls + [Ioctl(1)];
    ret := if ioctlResult < 0 then NPU_ERROR_DEVICE else NPU_SUCCESS;
  }

  /** npu_get_status: one ioctl(fd, 0, status); the driver stores `reported` through the
      pointer when the ioctl succeeds. */
  method GetStatus(ctx: NpuContext?, statusPtr: bool, ioctlResult: int, reported: bv32)
    returns (ret: int, status: Option<bv32>)
    modifies ctx
    ensures ctx == null || !statusPtr ==>
      ret == NPU_ERROR_INVALID && status == None && (ctx != null ==> ctx.calls == old(ctx.calls))
    ensures ctx != null && statusPtr ==>
      ctx.calls == old(ctx.calls) + [Ioctl(0)]
      && (ret == NPU_SUCCESS <==> ioctlResult >= 0)
      && (ret != NPU_SUCCESS ==> ret == NPU_ERROR_DEVICE && status == None)
      && (ret == NPU_SUCCESS ==> status == Some(reported))
    ensures ctx != null ==>
      ctx.bufferOffset == old(ctx.bufferOffset) && ctx.buffer == old(ctx.buffer) && ctx.bufferSize == old(ctx.bufferSize)
  {
    if ctx == null || !statusPtr {
      return NPU_ERROR_INVALID, None;
    }
    ctx.calls := ctx.calls + [Ioctl(0)];
    if ioctlResult < 0 {
      return NPU_ERROR_DEVICE, None;
    }
    return NPU_SUCCESS, Some(reported);
  }

  // ---------------------------------------------------------------------------------------
  // Staged operations

  /** The instruction npu_matrix_multiply builds for C = A * B staged at 0, |A|, |A|+|B|. */
  function MatMulInstruction(a: Tensor, b: Tensor, c: Tensor): Instruction
  {
    Instruction(NPU_OP_MATMUL, 0, U32(a.size), U32(a.size + b.size), U32(c.size),
                [a.dims.h as bv32, a.dims.w as bv32, b.dims.w as bv32, 0])
  }

  /** `(hi << 16) | lo` on uint32_t. */
  function Pack16(hi: bv32, lo: bv32): bv32
  {
    (hi << 16) | lo
  }

  /** Both halves of a packed parameter come back when each is below 2^16. */
  lemma Pack16Unpacks(hi: bv32, lo: bv32)
    requires hi < 0x1_0000 && lo < 0x1_0000
    ensures Pack16(hi, lo) >> 16 == hi && Pack16(hi, lo) & 0xFFFF == lo
  {
  }

  /** The instruction npu_conv2d builds for input, weights and output staged at
      0, |input|, |input|+|weights|. */
  function ConvInstruction(input: Tensor, weights: Tensor, output: Tensor,
                           strideH: bv32, strideW: bv32, padH: bv32, padW: bv32): Instruction
  {
    Instruction(NPU_OP_CONV, 0, U32(input.size), U32(input.size + weights.size), U32(output.size),
                [Pack16(strideH, strideW), Pack16(padH, padW), 0, 0])
  }

  /** What a staged operation (npu_matrix_multiply, npu_conv2d) does to a valid context once
      its arguments are non-NULL: the offset is reset to 0; x, y, z are staged in turn at
      0, |x|, |x|+|y|, stopping with MEMORY at the first that does not fit; then `inst` is
      written over the start of the buffer and sent, the completion wait issued, and z's
      bytes copied back out of the buffer. `written` and `waitResult` are what write() and
      the wait ioctl return. */
  ghost predicate StagedRun(before: seq<bv8>, callsBefore: seq<DeviceCall>, x: Tensor, y: Tensor, z: Tensor,
                            inst: Instruction, written: int, waitResult: int,
                            ret: int, after: seq<bv8>, offsetAfter: int, callsAfter: seq<DeviceCall>,
                            zData: seq<bv8>)
    requires Covers(x) && Covers(y) && Covers(z) && |before| >= INSTRUCTION_SIZE
  {
    if !Fits(0, x.size, |before|) then
      ret == NPU_ERROR_MEMORY && offsetAfter == 0 && after == before && callsAfter == callsBefore && zData == z.data
    else
      var s1 := Splice(before, 0, Bytes(x));
      if !Fits(x.size, y.size, |before|) then
        ret == NPU_ERROR_MEMORY && offsetAfter == x.size && after == s1 && callsAfter == callsBefore
        && zData == z.data
      else
        var s2 := Splice(s1, x.size, Bytes(y));
        var offZ := x.size + y.size;
        if !Fits(offZ, z.size, |before|) then
          ret == NPU_ERROR_MEMORY && offsetAfter == offZ && after == s2 && callsAfter == callsBefore
          && zData == z.data
        else
          var e := EncodeInstruction(inst);
          offsetAfter == offZ + z.size
          && after == Splice(Splice(s2, offZ, Bytes(z)), 0, e)
          && if written != INSTRUCTION_SIZE then
               ret == NPU_ERROR_DEVICE && callsAfter == callsBefore + [Write(e)] && zData == z.data
             else if waitResult < 0 then
               ret == NPU_ERROR_DEVICE && callsAfter == callsBefore + [Write(e), Ioctl(1)] && zData == z.data
             else
               ret == NPU_SUCCESS && callsAfter == callsBefore + [Write(e), Ioctl(1)]
               && zData == Splice(z.data, 0, after[offZ..offZ + z.size])
  }

  /** The staging half of a staged operation: the offset is reset to 0 and x, y, z are
      copied in turn to 0, |x|, |x|+|y|, stopping with MEMORY at the first that does not
      fit. */
  method StageOperands(ctx: NpuContext, x: Tensor, y: Tensor, z: Tensor) returns (ret: int)
    requires ctx.Valid() && Covers(x) && Covers(y) && Covers(z)
    modifies ctx, ctx.buffer
    ensures ctx.Valid() && ctx.buffer == old(ctx.buffer) && ctx.calls == old(ctx.calls)
    ensures var before := old(ctx.buffer[..]);
      if !Fits(0, x.size, |before|) then
        ret == NPU_ERROR_MEMORY && ctx.bufferOffset == 0 && ctx.buffer[..] == before
      else
        var s1 := Splice(before, 0, Bytes(x));
        if !Fits(x.size, y.size, |before|) then
          ret == NPU_ERROR_MEMORY && ctx.bufferOffset == x.size && ctx.buffer[..] == s1
        else
          var s2 := Splice(s1, x.size, Bytes(y));
          var offZ := x.size + y.size;
          if !Fits(offZ, z.size, |before|) then
            ret == NPU_ERROR_MEMORY && ctx.bufferOffset == offZ && ctx.buffer[..] == s2
          else
            ret == NPU_SUCCESS && ctx.bufferOffset == offZ + z.size
            && ctx.buffer[..] == Splice(s2, offZ, Bytes(z))
  {
    ctx.bufferOffset := 0;
    var offX, offY, offZ;
    ret, offX := CopyTensorToBuffer(ctx, Some(x), true);
    if ret != NPU_SUCCESS {
      return;
    }
    ret, offY := CopyTensorToBuffer(ctx, Some(y), true);
    if ret != NPU_SUCCESS {
      return;
    }
    ret, offZ := CopyTensorToBuffer(ctx, Some(z), true);
  }

  /** The common body of npu_matrix_multiply and npu_conv2d after their NULL checks. */
  method RunStaged(ctx: NpuContext, x: Tensor, y: Tensor, z: Tensor, inst: Instruction,
                   written: int, waitResult: int)
    returns (ret: int, zData: seq<bv8>)
    requires ctx.Valid() && Covers(x) && Covers(y) && Covers(z)
    modifies ctx, ctx.buffer
    ensures ctx.Valid() && ctx.buffer == old(ctx.buffer)
    ensures StagedRun(old(ctx.buffer[..]), old(ctx.calls), x, y, z, inst, written, waitResult,
                      ret, ctx.buffer[..], ctx.bufferOffset, ctx.calls, zData)
  {
    ret := StageOperands(ctx, x, y, z);
    if ret != NPU_SUCCESS {
      return ret, z.data;
    }
    var offZ: u32 := x.size + y.size;
    ret := ExecuteInstruction(ctx, Some(inst), written);
    if ret != NPU_SUCCESS {
      return ret, z.data;
    }
    ret := WaitCompletion(ctx, 0, waitResult);
    if ret != NPU_SUCCESS {
      return ret, z.data;
    }
    ret, zData := CopyTensorFromBuffer(ctx, Some(z), offZ);
  }

  /** npu_matrix_multiply. `cData` is what c's data bytes hold afterwards. */
  method MatrixMultiply(ctx: NpuContext?, a: Option<Tensor>, b: Option<Tensor>, c: Option<Tensor>,
                        written: int, waitResult: int)
    returns (ret: int, cData: seq<bv8>)
    requires ctx != null ==> ctx.Valid()
    requires a.Some? ==> Covers(a.value)
    requires b.Some? ==> Covers(b.value)
    requires c.Some? ==> Covers(c.value)
    modifies Footprint(ctx)
    ensures ctx != null ==> ctx.Valid() && ctx.buffer == old(ctx.buffer)
    ensures ctx == null || a.None? || b.None? || c.None? ==>
      ret == NPU_ERROR_INVALID && cData == (if c.Some? then c.value.data else [])
      && (ctx != null ==> ctx.bufferOffset == old(ctx.bufferOffset) && ctx.buffer[..] == old(ctx.buffer[..])
                          && ctx.calls == old(ctx.calls))
    ensures ctx != null && a.Some? && b.Some? && c.Some? ==>
      StagedRun(old(ctx.buffer[..]), old(ctx.calls), a.value, b.value, c.value,
                MatMulInstruction(a.value, b.value, c.value), written, waitResult,
                ret, ctx.buffer[..], ctx.bufferOffset, ctx.calls, cData)
  {
    if ctx == null || a.None? || b.None? || c.None? {
      return NPU_ERROR_INVALID, if c.Some? then c.value.data else [];
    }
    var inst := MatMulInstruction(a.value, b.value, c.value);
    ret, cData := RunStaged(ctx, a.value, b.value, c.value, inst, written, waitResult);
  }

  /** npu_conv2d. `outData` is what output's data bytes hold afterwards. */
  method Conv2d(ctx: NpuContext?, input: Option<Tensor>, weights: Option<Tensor>, output: Option<Tensor>,
                strideH: bv32, strideW: bv32, padH: bv32, padW: bv32, written: int, waitResult: int)
    returns (ret: int, outData: seq<bv8>)
    requires ctx != null ==> ctx.Valid()
    requires input.Some? ==> Covers(input.value)
    requires weights.Some? ==> Covers(weights.value)
    requires output.Some? ==> Covers(output.value)
    modifies Footprint(ctx)
    ensures ctx != null ==> ctx.Valid() && ctx.buffer == old(ctx.buffer)
    ensures ctx == null || input.None? || weights.None? || output.None? ==>
      ret == NPU_ERROR_INVALID && outData == (if output.Some? then output.value.data else [])
      && (ctx != null ==> ctx.bufferOffset == old(ctx.bufferOffset) && ctx.buffer[..] == old(ctx.buffer[..])
                          && ctx.calls == old(ctx.calls))
    ensures ctx != null && input.Some? && weights.Some? && output.Some? ==>
      StagedRun(old(ctx.buffer[..]), old(ctx.calls), input.value, weights.value, output.value,
                ConvInstruction(input.value, weights.value, output.value, strideH, strideW, padH, padW),
                written, waitResult, ret, ctx.buffer[..], ctx.bufferOffset, ctx.calls, outData)
  {
    if ctx == null || input.None? || weights.None? || output.None? {
      return NPU_ERROR_INVALID, if output.Some? then output.value.data else [];
    }
    var inst := ConvInstruction(input.value, weights.value, output.value, strideH, strideW, padH, padW);
    ret, outData := RunStaged(ctx, input.value, weights.value, output.value, inst, written, waitResult);
  }

  /** After a successful staged operation the buffer starts with the instruction, and the
      first tensor survives only from byte 36 on. */
  lemma StagedRunOverwritesFirstTensor(before: seq<bv8>, callsBefore: seq<DeviceCall>, x: Tensor, y: Tensor,
                                       z: Tensor, inst: Instruction, written: int, waitResult: int,
                                       ret: int, after: seq<bv8>, offsetAfter: int,
                                       callsAfter: seq<DeviceCall>, zData: seq<bv8>)
    requires Covers(x) && Covers(y) && Covers(z) && |before| >= INSTRUCTION_SIZE
    requires StagedRun(before, callsBefore, x, y, z, inst, written, waitResult, ret, after, offsetAfter,
                       callsAfter, zData)
    requires ret == NPU_SUCCESS
    ensures after[..INSTRUCTION_SIZE] == EncodeInstruction(inst)
    ensures forall k :: INSTRUCTION_SIZE <= k < x.size ==> after[k] == x.data[k]
  {
    var offZ := x.size + y.size;
    var s1 := Splice(before, 0, Bytes(x));
    var s2 := Splice(s1, x.size, Bytes(y));
    var s3 := Splice(s2, offZ, Bytes(z));
    SpliceReadBack(s3, 0, EncodeInstruction(inst));
    assert after[..INSTRUCTION_SIZE] == after[0..0 + |EncodeInstruction(inst)|];
  }

  /** No result is read from the device: when the first two tensors take at least 36 bytes,
      a successful staged operation hands z's own bytes back unchanged. */
  lemma StagedRunNoReadBack(before: seq<bv8>, callsBefore: seq<DeviceCall>, x: Tensor, y: Tensor,
                            z: Tensor, inst: Instruction, written: int, waitResult: int,
                            ret: int, after: seq<bv8>, offsetAfter: int,
                            callsAfter: seq<DeviceCall>, zData: seq<bv8>)
    requires Covers(x) && Covers(y) && Covers(z) && |before| >= INSTRUCTION_SIZE
    requires StagedRun(before, callsBefore, x, y, z, inst, written, waitResult, ret, after, offsetAfter,
                       callsAfter, zData)
    requires x.size + y.size >= INSTRUCTION_SIZE
    ensures zData == z.data
  {
    if ret == NPU_SUCCESS {
      var offZ := x.size + y.size;
      var s2 := Splice(Splice(before, 0, Bytes(x)), x.size, Bytes(y));
      assert after == Splice(Splice(s2, offZ, Bytes(z)), 0, EncodeInstruction(inst));
      assert zData == Splice(z.data, 0, after[offZ..offZ + z.size]);
      ReadBackPastInstruction(s2, offZ, Bytes(z), EncodeInstruction(inst));
      SpliceOwnPrefix(z.data, z.size);
    }
  }

  /** A region staged past the first |e| bytes is untouched by copying e over the start. */
  lemma ReadBackPastInstruction(s: seq<bv8>, at: nat, src: seq<bv8>, e: seq<bv8>)
    requires at + |src| <= |s| && |e| <= at
    ensures Splice(Splice(s, at, src), 0, e)[at..at + |src|] == src
  {
    SpliceFrame(Splice(s, at, src), 0, e, at, at + |src|);
    SpliceReadBack(s, at, src);
  }

  /** Copying a sequence's own prefix over its start changes nothing. */
  lemma SpliceOwnPrefix(d: seq<bv8>, n: nat)
    requires n <= |d|
    ensures Splice(d, 0, d[..n]) == d
  {
    assert forall k :: 0 <= k < |d| ==> Splice(d, 0, d[..n])[k] == d[k];
  }

  /** When the first two tensors are shorter than 36 bytes, the first bytes copied back into
      z are instruction bytes. */
  lemma StagedRunReadsInstruction(before: seq<bv8>, callsBefore: seq<DeviceCall>, x: Tensor, y: Tensor,
                                  z: Tensor, inst: Instruction, written: int, waitResult: int,
                                  ret: int, after: seq<bv8>, offsetAfter: int,
                                  callsAfter: seq<DeviceCall>, zData: seq<bv8>, k: nat)
    requires Covers(x) && Covers(y) && Covers(z) && |before| >= INSTRUCTION_SIZE
    requires StagedRun(before, callsBefore, x, y, z, inst, written, waitResult, ret, after, offsetAfter,
                       callsAfter, zData)
    requires ret == NPU_SUCCESS && k < z.size && x.size + y.size + k < INSTRUCTION_SIZE
    ensures zData[k] == EncodeInstruction(inst)[x.size + y.size + k]
  {
  }

  /** The instruction for C = A * B: op MATMUL, A, B, C at 0, |A|, |A|+|B|, size |C| and
      parameters M, K, N = a.dims[2], a.dims[3], b.dims[3]; the device decodes it so. */
  lemma MatMulInstructionFields(a: Tensor, b: Tensor, c: Tensor)
    ensures DecodeInstruction(EncodeInstruction(MatMulInstruction(a, b, c)))
         == Instruction(NPU_OP_MATMUL, 0, U32(a.size), U32(a.size + b.size), U32(c.size),
                        [a.dims.h as bv32, a.dims.w as bv32, b.dims.w as bv32, 0])
  {
    DecodeEncode(MatMulInstruction(a, b, c));
  }

  /** The convolution parameters the device decodes unpack to the strides and paddings,
      when each is below 2^16. */
  lemma ConvInstructionFields(input: Tensor, weights: Tensor, output: Tensor,
                              strideH: bv32, strideW: bv32, padH: bv32, padW: bv32)
    requires strideH < 0x1_0000 && strideW < 0x1_0000 && padH < 0x1_0000 && padW < 0x1_0000
    ensures var i := DecodeInstruction(EncodeInstruction(
                       ConvInstruction(input, weights, output, strideH, strideW, padH, padW)));
      i.op == NPU_OP_CONV && i.params[2] == 0 && i.params[3] == 0
      && i.params[0] >> 16 == strideH && i.params[0] & 0xFFFF == strideW
      && i.params[1] >> 16 == padH && i.params[1] & 0xFFFF == padW
  {
    DecodeEncode(ConvInstruction(input, weights, output, strideH, strideW, padH, padW));
    Pack16Unpacks(strideH, strideW);
    Pack16Unpacks(padH, padW);
  }

  /** The instruction npu_add and npu_multiply build: only op and size are set. */
  function ElementwiseInstruction(op: bv32, c: Tensor): Instruction
  {
    Instruction(op, 0, 0, 0, U32(c.size), [0, 0, 0, 0])
  }

  /** npu_add (op ADD) and npu_multiply (op MUL): no tensor is staged; the instruction is
      executed and the completion wait issued. */
  method Elementwise(op: bv32, ctx: NpuContext?, a: Option<Tensor>, b: Option<Tensor>, c: Option<Tensor>,
                     written: int, waitResult: int)
    returns (ret: int)
    requires ctx != null ==> ctx.Valid()
    modifies Footprint(ctx)
    ensures ctx != null ==> ctx.Valid() && ctx.buffer == old(ctx.buffer) && ctx.bufferOffset == old(ctx.bufferOffset)
    ensures ctx == null || a.None? || b.None? || c.None? ==>
      ret == NPU_ERROR_INVALID && (ctx != null ==> ctx.buffer[..] == old(ctx.buffer[..]) && ctx.calls == old(ctx.calls))
    ensures ctx != null && a.Some? && b.Some? && c.Some? ==>
      var e := EncodeInstruction(ElementwiseInstruction(op, c.value));
      ctx.buffer[..] == Splice(old(ctx.buffer[..]), 0, e)
      && if written != INSTRUCTION_SIZE then
           ret == NPU_ERROR_DEVICE && ctx.calls == old(ctx.calls) + [Write(e)]
         else
           ctx.calls == old(ctx.calls) + [Write(e), Ioctl(1)]
           && ret == (if waitResult < 0 then NPU_ERROR_DEVICE else NPU_SUCCESS)
  {
    if ctx == null || a.None? || b.None? || c.None? {
      return NPU_ERROR_INVALID;
    }
    ret := ExecuteInstruction(ctx, Some(ElementwiseInstruction(op, c.value)), written);
    if ret != NPU_SUCCESS {
      return ret;
    }
    ret := WaitCompletion(ctx, 0, waitResult);
  }

  /** npu_add. */
  method Add(ctx: NpuContext?, a: Option<Tensor>, b: Option<Tensor>, c: Option<Tensor>,
             written: int, waitResult: int)
    returns (ret: int)
    requires ctx != null ==> ctx.Valid()
    modifies Footprint(ctx)
    ensures ctx != null ==> ctx.Valid() && ctx.buffer == old(ctx.buffer) && ctx.bufferOffset == old(ctx.bufferOffset)
    ensures ctx == null || a.None? || b.None? || c.None? ==>
      ret == NPU_ERROR_INVALID && (ctx != null ==> ctx.buffer[..] == old(ctx.buffer[..]) && ctx.calls == old(ctx.calls))
    ensures ctx != null && a.Some? && b.Some? && c.Some? ==>
      var e := EncodeInstruction(ElementwiseInstruction(NPU_OP_ADD, c.value));
      ctx.buffer[..] == Splice(old(ctx.buffer[..]), 0, e)
      && if written != INSTRUCTION_SIZE then
           ret == NPU_ERROR_DEVICE && ctx.calls == old(ctx.calls) + [Write(e)]
         else
           ctx.calls == old(ctx.calls) + [Write(e), Ioctl(1)]
           && ret == (if waitResult < 0 then NPU_ERROR_DEVICE else NPU_SUCCESS)
  {
    ret := Elementwise(NPU_OP_ADD, ctx, a, b, c, written, waitResult);
  }

  /** npu_multiply. */
  method Multiply(ctx: NpuContext?, a: Option<Tensor>, b: Option<Tensor>, c: Option<Tensor>,
                  written: int, waitResult: int)
    returns (ret: int)
    requires ctx != null ==> ctx.Valid()
    modifies Footprint(ctx)
    ensures ctx != null ==> ctx.Valid() && ctx.buffer == old(ctx.buffer) && ctx.bufferOffset == old(ctx.bufferOffset)
    ensures ctx == null || a.None? || b.None? || c.None? ==>
      ret == NPU_ERROR_INVALID && (ctx != null ==> ctx.buffer[..] == old(ctx.buffer[..]) && ctx.calls == old(ctx.calls))
    ensures ctx != null && a.Some? && b.Some? && c.Some? ==>
      var e := EncodeInstruction(ElementwiseInstruction(NPU_OP_MUL, c.value));
      ctx.buffer[..] == Splice(old(ctx.buffer[..]), 0, e)
      && if written != INSTRUCTION_SIZE then
           ret == NPU_ERROR_DEVICE && ctx.calls == old(ctx.calls) + [Write(e)]
         else
           ctx.calls == old(ctx.calls) + [Write(e), Ioctl(1)]
           && ret == (if waitResult < 0 then NPU_ERROR_DEVICE else NPU_SUCCESS)
  {
    ret := Elementwise(NPU_OP_MUL, ctx, a, b, c, written, waitResult);
  }

  /** npu_get_performance_counters: a placeholder that reports zero cycles and operations.
      `cyclesPtr`/`operationsPtr` are false for NULL output pointers. */
  method GetPerformanceCounters(ctx: NpuContext?, cyclesPtr: bool, operationsPtr: bool)
    returns (ret: int, cycles: Option<u64>, operations: Option<u64>)
    ensures ret == NPU_ERROR_INVALID <==> ctx == null || !cyclesPtr || !operationsPtr
    ensures ret == NPU_ERROR_INVALID ==> cycles == None && operations == None
    ensures ret != NPU_ERROR_INVALID ==> ret == NPU_SUCCESS && cycles == Some(0) && operations == Some(0)
  {
    if ctx == null || !cyclesPtr || !operationsPtr {
      return NPU_ERROR_INVALID, None, None;
    }
    return NPU_SUCCESS, Some(0), Some(0);
  }

  /** npu_reset_performance_counters: a placeholder with only the NULL check. */
  method ResetPerformanceCounters(ctx: NpuContext?) returns (ret: int)
    ensures ret == (if ctx == null then NPU_ERROR_INVALID else NPU_SUCCESS)
  {
    if ctx == null {
      return NPU_ERROR_INVALID;
    }
    ret := NPU_SUCCESS;
  }
}
