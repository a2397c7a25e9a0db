/**
 * The kernel driver's register and session state machine. The control BAR is a map from
 * register offset to the 32-bit value it holds, and every iowrite32 is also recorded in
 * `regWrites`. Changes the hardware makes on its own (STATUS bits) are the separate step
 * `DeviceReports`. What the user pointers can hold, a pending mutex signal and a signal
 * ending the completion wait are parameters.
 */
module NpuDriver {
  import opened Common

  // Register offsets in the control BAR
  const REG_CONTROL: nat := 0x00
  const REG_STATUS: nat := 0x04
  const REG_DATA_ADDR: nat := 0x08
  const REG_DATA_SIZE: nat := 0x0C
  const REG_INTERRUPT: nat := 0x10

  // CONTROL bits
  const CTRL_ENABLE: bv32 := 1
  const CTRL_RESET: bv32 := 2
  const CTRL_START: bv32 := 4

  // STATUS bits
  const STATUS_READY: bv32 := 1
  const STATUS_BUSY: bv32 := 2
  const STATUS_ERROR: bv32 := 4
  const STATUS_DONE: bv32 := 8

  const PAGE_SIZE: nat := 4096
  /** The DMA buffer probe allocates: 16 pages. */
  const DMA_SIZE: nat := PAGE_SIZE * 16

  // Linux error numbers returned negated
  const EFAULT: int := 14
  const EBUSY: int := 16
  const ENOTTY: int := 25
  const ERESTARTSYS: int := 512

  // irqreturn_t
  const IRQ_NONE: int := 0
  const IRQ_HANDLED: int := 1

  /** The ioctl commands. */
  const NPU_IOCTL_STATUS: bv32 := 0
  const NPU_IOCTL_WAIT: bv32 := 1

  /** The five registers the driver names. */
  predicate HasRegisters(bar: map<nat, bv32>)
  {
    REG_CONTROL in bar && REG_STATUS in bar && REG_DATA_ADDR in bar && REG_DATA_SIZE in bar
    && REG_INTERRUPT in bar
  }

  /** One iowrite32. */
  datatype RegWrite = RegWrite(offset: nat, value: bv32)

  /** The low 32 bits of a DMA address, `(u32)dev->dma_handle`. */
  function Low32(x: bv64): bv32
  {
    (x & 0xFFFF_FFFF) as bv32
  }

  /** The three register writes that start the NPU on a DMA buffer of `len` bytes. */
  function StartWrites(dmaHandle: bv64, len: nat): seq<RegWrite>
    requires len <= DMA_SIZE
  {
    [RegWrite(REG_DATA_ADDR, Low32(dmaHandle)), RegWrite(REG_DATA_SIZE, len as bv32),
     RegWrite(REG_CONTROL, CTRL_ENABLE | CTRL_START)]
  }

  /** open() on the session flag: the result and the new flag. */
  function OpenStep(deviceOpen: bool, lockInterrupted: bool): (r: (int, bool))
    ensures r.0 == 0 <==> !lockInterrupted && !deviceOpen
    ensures r.0 == 0 ==> r.1
    ensures r.0 != 0 ==> r.1 == deviceOpen && (r.0 == -ERESTARTSYS || r.0 == -EBUSY)
    ensures r.0 == -EBUSY <==> !lockInterrupted && deviceOpen
  {
    if lockInterrupted then (-ERESTARTSYS, deviceOpen)
    else if deviceOpen then (-EBUSY, deviceOpen)
    else (0, true)
  }

  /** The completion flag after an interrupt whose STATUS read gave `status`. */
  function IrqFlag(flag: bool, status: bv32): (r: bool)
    ensures r == (flag || status & STATUS_DONE != 0)
  {
    if status & STATUS_DONE == 0 then flag else true
  }

  /** The NPU device the driver binds (struct fpga_npu_dev). */
  class NpuDevice {
    var bar: map<nat, bv32>
    var regWrites: seq<RegWrite>
    var dmaBuffer: array<bv8>
    var dmaSize: nat
    var dmaHandle: bv64
    var deviceOpen: bool
    var interruptReceived: bool

    ghost predicate Valid()
      reads this
    {
      HasRegisters(bar) && dmaBuffer.Length == dmaSize == DMA_SIZE
    }

    /** The state fpga_npu_probe leaves: a zeroed device structure, a 16-page DMA buffer
        at `dmaHandle`, and CONTROL written with RESET and then ENABLE. `initialBar` is what
        the registers hold before probe. */
    constructor Probe(initialBar: map<nat, bv32>, dmaHandle: bv64)
      requires HasRegisters(initialBar)
      ensures Valid() && fresh(dmaBuffer)
      ensures regWrites == [RegWrite(REG_CONTROL, CTRL_RESET), RegWrite(REG_CONTROL, CTRL_ENABLE)]
      ensures bar == initialBar[REG_CONTROL := CTRL_ENABLE]
      ensures this.dmaHandle == dmaHandle && dmaSize == PAGE_SIZE * 16
      ensures !deviceOpen && !interruptReceived
    {
      bar := initialBar;
      regWrites := [];
      deviceOpen := false;
      interruptReceived := false;
      dmaSize := PAGE_SIZE * 16;
      dmaBuffer := new bv8[PAGE_SIZE * 16];
      this.dmaHandle := dmaHandle;
      new;
      IoWrite32(CTRL_RESET, REG_CONTROL);
      IoWrite32(CTRL_ENABLE, REG_CONTROL);
    }

    /** iowrite32(value, control_bar + offset). */
    method IoWrite32(value: bv32, offset: nat)
      modifies this`bar, this`regWrites
      ensures bar == old(bar)[offset := value]
      ensures regWrites == old(regWrites) + [RegWrite(offset, value)]
    {
      bar := bar[offset := value];
      regWrites := regWrites + [RegWrite(offset, value)];
    }

    /** The hardware changing STATUS on its own, e.g. setting DONE. */
    method DeviceReports(status: bv32)
      requires Valid()
      modifies this`bar
      ensures Valid() && bar == old(bar)[REG_STATUS := status]
    {
      bar := bar[REG_STATUS := status];
    }

    /** fpga_npu_remove: CONTROL is written with 0 to disable the device. */
    method Remove()
      requires Valid()
      modifies this`bar, this`regWrites
      ensures Valid()
      ensures regWrites == old(regWrites) + [RegWrite(REG_CONTROL, 0)]
      ensures bar == old(bar)[REG_CONTROL := 0]
    {
      IoWrite32(0, REG_CONTROL);
    }

    /** fpga_npu_interrupt. Without DONE in STATUS the interrupt is not ours: IRQ_NONE and
        nothing changes. With DONE, STATUS is written back to clear it and the completion
        flag is set. */
    method Interrupt() returns (r: int)
      requires Valid()
      modifies this`bar, this`regWrites, this`interruptReceived
      ensures Valid()
      ensures var status := old(bar[REG_STATUS]);
        interruptReceived == IrqFlag(old(interruptReceived), status)
        && if status & STATUS_DONE == 0 then
             r == IRQ_NONE && bar == old(bar) && regWrites == old(regWrites)
           else
             r == IRQ_HANDLED && interruptReceived
             && regWrites == old(regWrites) + [RegWrite(REG_STATUS, status)]
             && bar == old(bar)
    {
      var status := bar[REG_STATUS];
      if status & STATUS_DONE == 0 {
        return IRQ_NONE;
      }
      IoWrite32(status, REG_STATUS);
      interruptReceived := true;
      r := IRQ_HANDLED;
    }

    /** fpga_npu_open. `lockInterrupted`: a signal arrived while waiting for the mutex. */
    method Open(lockInterrupted: bool) returns (r: int)
      modifies this`deviceOpen
      ensures (r, deviceOpen) == OpenStep(old(deviceOpen), lockInterrupted)
    {
      if lockInterrupted {
        return -ERESTARTSYS;
      }
      if deviceOpen {
        return -EBUSY;
      }
      deviceOpen := true;
      r := 0;
    }

    /** fpga_npu_release. */
    method Release() returns (r: int)
      modifies this`deviceOpen
      ensures r == 0 && !deviceOpen
    {
      deviceOpen := false;
      r := 0;
    }

    /** fpga_npu_read: at most dma_size bytes from the start of the DMA buffer.
        `userRoom` is how many bytes the user buffer accepts. */
    method Read(len: u64, userRoom: nat) returns (r: int, delivered: seq<bv8>)
      requires Valid()
      ensures var n := if len > dmaSize then dmaSize else len;
        if userRoom < n then r == -EFAULT && delivered == []
        else r == n && delivered == dmaBuffer[..n]
    {
      var n := len;
      if n > dmaSize {
        n := dmaSize;
      }
      if userRoom < n {
        return -EFAULT, [];
      }
      return n, dmaBuffer[..n];
    }

    /** fpga_npu_write: the user bytes (at most dma_size of them) go into the DMA buffer and
        the NPU is started on them. `user` is what the user pointer lets the kernel read.
        A copy that runs out of readable bytes keeps what it copied, zero-fills the rest of
        the requested length and fails with -EFAULT before any register write. */
    method Write(user: seq<bv8>, len: u64) returns (r: int)
      requires Valid()
      modifies this`bar, this`regWrites, dmaBuffer
      ensures Valid()
      ensures var n := if len > dmaSize then dmaSize else len;
        if |user| < n then
          r == -EFAULT && bar == old(bar) && regWrites == old(regWrites)
          && dmaBuffer[..n] == user + Zeros(n - |user|) && dmaBuffer[n..] == old(dmaBuffer[n..])
        else
          r == n && dmaBuffer[..n] == user[..n] && dmaBuffer[n..] == old(dmaBuffer[n..])
          && regWrites == old(regWrites) + StartWrites(dmaHandle, n)
          && bar == old(bar)[REG_DATA_ADDR := Low32(dmaHandle)][REG_DATA_SIZE := n as bv32]
                            [REG_CONTROL := CTRL_ENABLE | CTRL_START]
    {
      var n := len;
      if n > dmaSize {
        n := dmaSize;
      }
      var copied := if |user| < n then user + Zeros(n - |user|) else user[..n];
      assert |copied| == n;
      CopyIn(copied);
      if |user| < n {
        return -EFAULT;
      }
      StartNpu(n);
      r := n;
    }

    /** The register writes that start processing of `len` bytes at the DMA address. */
    method StartNpu(len: nat)
      requires Valid() && len <= DMA_SIZE
      modifies this`bar, this`regWrites
      ensures Valid()
      ensures regWrites == old(regWrites) + StartWrites(dmaHandle, len)
      ensures bar == old(bar)[REG_DATA_ADDR := Low32(dmaHandle)][REG_DATA_SIZE := len as bv32]
                             [REG_CONTROL := CTRL_ENABLE | CTRL_START]
    {
      IoWrite32(Low32(dmaHandle), REG_DATA_ADDR);
      IoWrite32(len as bv32, REG_DATA_SIZE);
      IoWrite32(CTRL_ENABLE | CTRL_START, REG_CONTROL);
    }

    /** copy_from_user into the start of the DMA buffer, byte by byte. */
    method CopyIn(src: seq<bv8>)
      requires Valid() && |src| <= dmaSize
      modifies dmaBuffer
      ensures dmaBuffer[..|src|] == src && dmaBuffer[|src|..] == old(dmaBuffer[|src|..])
    {
      var i := 0;
      while i < |src|
        invariant 0 <= i <= |src|
        invariant dmaBuffer[..i] == src[..i]
        invariant dmaBuffer[i..] == old(dmaBuffer[i..])
      {
        dmaBuffer[i] := src[i];
        assert dmaBuffer[..i + 1] == src[..i + 1];
        i := i + 1;
      }
    }

    /** fpga_npu_ioctl. Command 0 reports STATUS through the user pointer (`userRoom` bytes
        writable there) and changes nothing. Command 1 is the completion wait: it can only
        return once the interrupt flag is set or, with `signalled`, a signal interrupts the
        wait; either way it clears the flag and returns 0. Anything else is -ENOTTY. */
    method Ioctl(cmd: bv32, userRoom: nat, signalled: bool) returns (r: int, reported: Option<bv32>)
      requires Valid()
      requires cmd == NPU_IOCTL_WAIT ==> interruptReceived || signalled
      modifies this`interruptReceived
      ensures Valid()
      ensures cmd == NPU_IOCTL_STATUS ==>
        interruptReceived == old(interruptReceived)
        && if userRoom < 4 then r == -EFAULT && reported == None
           else r == 0 && reported == Some(bar[REG_STATUS])
      ensures cmd == NPU_IOCTL_WAIT ==> r == 0 && reported == None && !interruptReceived
      ensures cmd != NPU_IOCTL_STATUS && cmd != NPU_IOCTL_WAIT ==>
        r == -ENOTTY && reported == None && interruptReceived == old(interruptReceived)
    {
      if cmd == NPU_IOCTL_STATUS {
        var status := bar[REG_STATUS];
        if userRoom < 4 {
          return -EFAULT, None;
        }
        return 0, Some(status);
      } else if cmd == NPU_IOCTL_WAIT {
        interruptReceived := false;
        return 0, None;
      }
      return -ENOTTY, None;
    }
  }

  function Zeros(n: nat): (z: seq<bv8>)
    ensures |z| == n && forall k :: 0 <= k < n ==> z[k] == 0
  {
    seq(n, _ => 0)
  }

  // ---------------------------------------------------------------------------------------
  // Sessions: open and release in sequence

  datatype FileOp = OpenOp(lockInterrupted: bool) | ReleaseOp

  /** The results of a sequence of open/release calls from a session flag. */
  function Sessions(deviceOpen: bool, ops: seq<FileOp>): (results: seq<int>)
    ensures |results| == |ops|
    decreases |ops|
  {
    if ops == [] then []
    else match ops[0]
      case OpenOp(intr) =>
        var (r, now) := OpenStep(deviceOpen, intr);
        [r] + Sessions(now, ops[1..])
      case ReleaseOp => [0] + Sessions(false, ops[1..])
  }

  /** From an open device, an open can only succeed after a release. */
  lemma {:induction false} SuccessNeedsRelease(ops: seq<FileOp>, k: nat)
    requires k < |ops| && Sessions(true, ops)[k] == 0
    ensures exists m :: 0 <= m <= k && ops[m] == ReleaseOp
    decreases |ops|
  {
    match ops[0]
    case ReleaseOp =>
    case OpenOp(intr) =>
      assert Sessions(true, ops) == [OpenStep(true, intr).0] + Sessions(true, ops[1..]);
      SuccessNeedsRelease(ops[1..], k - 1);
      var m :| 0 <= m <= k - 1 && ops[1..][m] == ReleaseOp;
      assert ops[m + 1] == ReleaseOp;
  }

  /** Two opens cannot both succeed unless a release comes between them. */
  lemma {:induction false} OpensNeedRelease(deviceOpen: bool, ops: seq<FileOp>, i: nat, j: nat)
    requires i < j < |ops| && ops[i].OpenOp? && ops[j].OpenOp?
    requires Sessions(deviceOpen, ops)[i] == 0 && Sessions(deviceOpen, ops)[j] == 0
    ensures exists k :: i < k < j && ops[k] == ReleaseOp
    decreases |ops|
  {
    var rest := ops[1..];
    var now := match ops[0] case OpenOp(intr) => OpenStep(deviceOpen, intr).1 case ReleaseOp => false;
    assert Sessions(deviceOpen, ops) == [Sessions(deviceOpen, ops)[0]] + Sessions(now, rest);
    if i > 0 {
      OpensNeedRelease(now, rest, i - 1, j - 1);
      var k :| i - 1 < k < j - 1 && rest[k] == ReleaseOp;
      assert ops[k + 1] == ReleaseOp;
    } else {
      var p := rest[..j];
      assert p + rest[j..] == rest;
      SessionsPrefix(true, p, rest[j..]);
      SuccessNeedsRelease(p, j - 1);
      var m :| 0 <= m <= j - 1 && p[m] == ReleaseOp;
      assert ops[m + 1] == ReleaseOp;
    }
  }

  /** The results of a prefix of a sequence of calls do not depend on what follows. */
  lemma {:induction false} SessionsPrefix(deviceOpen: bool, a: seq<FileOp>, b: seq<FileOp>)
    ensures Sessions(deviceOpen, a + b)[..|a|] == Sessions(deviceOpen, a)
    decreases |a|
  {
    if a != [] {
      var now := match a[0] case OpenOp(intr) => OpenStep(deviceOpen, intr).1 case ReleaseOp => false;
      assert (a + b)[0] == a[0] && (a + b)[1..] == a[1..] + b;
      SessionsPrefix(now, a[1..], b);
    }
  }

  // ---------------------------------------------------------------------------------------
  // Completion: interrupts and waits in sequence

  datatype DeviceEvent = Irq(status: bv32) | Wait

  /** The interrupt flag after a sequence of interrupts and completed waits. */
  function FlagAfter(flag: bool, evs: seq<DeviceEvent>): bool
  {
    if evs == [] then flag
    else match evs[|evs| - 1]
      case Irq(status) => IrqFlag(FlagAfter(flag, evs[..|evs| - 1]), status)
      case Wait => false
  }

  /** No wait comes after position i. */
  ghost predicate NoWaitAfter(evs: seq<DeviceEvent>, i: int)
  {
    forall k :: 0 <= k < |evs| && i < k ==> evs[k] != Wait
  }

  /** Since the last wait (or from the start), some interrupt saw DONE. */
  ghost predicate DoneSinceLastWait(evs: seq<DeviceEvent>)
  {
    exists i :: 0 <= i < |evs| && evs[i].Irq? && evs[i].status & STATUS_DONE != 0 && NoWaitAfter(evs, i)
  }

  /** A wait that finds the flag set (from a clear start) was preceded by an interrupt that
      saw DONE, with no wait in between. */
  lemma {:induction false} FlagNeedsDone(evs: seq<DeviceEvent>)
    requires FlagAfter(false, evs)
    ensures DoneSinceLastWait(evs)
  {
    var last := |evs| - 1;
    var init := evs[..last];
    match evs[last]
    case Irq(status) =>
      if status & STATUS_DONE != 0 {
        assert NoWaitAfter(evs, last);
      } else {
        FlagNeedsDone(init);
        var i :| 0 <= i < |init| && init[i].Irq? && init[i].status & STATUS_DONE != 0 && NoWaitAfter(init, i);
        assert evs[i] == init[i];
        assert NoWaitAfter(evs, i);
      }
  }

  /** An interrupt that saw DONE with no wait after it leaves the flag set. */
  lemma {:induction false} DoneSetsFlag(flag: bool, evs: seq<DeviceEvent>)
    requires DoneSinceLastWait(evs)
    ensures FlagAfter(flag, evs)
  {
    var last := |evs| - 1;
    var init := evs[..last];
    var i :| 0 <= i < |evs| && evs[i].Irq? && evs[i].status & STATUS_DONE != 0 && NoWaitAfter(evs, i);
    if i < last {
      assert evs[last] != Wait;
    }
    match evs[last]
    case Irq(status) =>
      if status & STATUS_DONE == 0 {
        assert i < last && init[i] == evs[i];
        assert NoWaitAfter(init, i);
        DoneSetsFlag(flag, init);
      }
  }

  /** Starting from a clear flag, a wait finds the flag set exactly when an interrupt has
      seen DONE since the previous wait. */
  lemma FlagMeansDone(evs: seq<DeviceEvent>)
    ensures FlagAfter(false, evs) <==> DoneSinceLastWait(evs)
  {
    if FlagAfter(false, evs) {
      FlagNeedsDone(evs);
    }
    if DoneSinceLastWait(evs) {
      DoneSetsFlag(false, evs);
    }
  }
}
