/** The TC358764 driver object: register reads and writes over the DSI
 *  host, the init program, the reset pulse and the power-on/power-off
 *  sequences behind the panel's enable and disable callbacks.
 *
 *  Everything the driver does to the outside world is recorded as an
 *  `Event` appended to the object's `trace`; the host's transfer operation
 *  and the regulator framework are oracles that answer from the trace so
 *  far.
 */
module Bridge {
  import opened Bits
  import opened Codec
  import opened Registers

  /** `ENOSYS`: the error `tc358764_read`/`tc358764_write` return, negated,
   *  when the host has no transfer operation. */
  const ENOSYS: int := 38

  /** The supply names, in the order they are handed to the regulator
   *  framework. */
  const SUPPLIES: seq<string> := ["vddc", "vddio", "vddmipi", "vddlvds133", "vddlvds112"]

  /** One call the driver makes into the kernel. */
  datatype Event =
    | Transfer(msg: Msg)                          // ops->transfer(host, &msg)
    | RegulatorsEnable(supplies: seq<string>)     // regulator_bulk_enable
    | RegulatorsDisable(supplies: seq<string>)    // regulator_bulk_disable
    | GpioSet(gpio: int, level: nat)              // gpio_set_value
    | Sleep(ms: nat)                              // msleep
    | PanelEnable                                 // drm_panel_enable of the downstream panel
    | PanelDisable                                // drm_panel_disable of the downstream panel

  /** The host's transfer operation: its answer to a message, given what
   *  the driver did before. */
  type TransferOp = (seq<Event>, Msg) -> Reply

  /** `struct mipi_dsi_host_ops`: the transfer operation may be missing. */
  datatype HostOps = HostOps(transfer: Option<TransferOp>)

  /** The DSI device the bridge sits on: its host's operations (the
   *  pointer may be null) and its virtual channel. */
  datatype DsiDevice = DsiDevice(ops: Option<HostOps>, channel: nat)

  /** The regulator framework's answers to bulk enable and bulk disable. */
  datatype RegulatorOps = RegulatorOps(enable: seq<Event> -> int, disable: seq<Event> -> int)

  /** The host offers a transfer operation. */
  predicate CanTransfer(dsi: DsiDevice)
  {
    dsi.ops.Some? && dsi.ops.value.transfer.Some?
  }

  // ---------------------------------------------------------------------
  // The events of each step

  /** What a register read emits. */
  function ReadEvents(dsi: DsiDevice, addr: u16): seq<Event>
  {
    if CanTransfer(dsi) then [Transfer(ReadMsg(dsi.channel, addr))] else []
  }

  /** What a register write emits. */
  function WriteEvents(dsi: DsiDevice, addr: u16, val: u32): seq<Event>
  {
    if CanTransfer(dsi) then [Transfer(WriteMsg(dsi.channel, addr, val))] else []
  }

  /** What a run of register writes emits: one write message per entry,
   *  in order. */
  function ProgramEvents(dsi: DsiDevice, prog: seq<RegWrite>): seq<Event>
  {
    if CanTransfer(dsi) then
      seq(|prog|, i requires 0 <= i < |prog| => Transfer(WriteMsg(dsi.channel, prog[i].addr, prog[i].val)))
    else []
  }

  /** What the init step emits: the ID read, then the init program. */
  function InitEvents(dsi: DsiDevice): seq<Event>
  {
    ReadEvents(dsi, SYS_ID) + ProgramEvents(dsi, INIT_PROGRAM)
  }

  /** The reset pulse on the reset line `gpio`. */
  function ResetEvents(gpio: int): seq<Event>
  {
    [Sleep(20), GpioSet(gpio, 0), Sleep(20), GpioSet(gpio, 1), Sleep(40)]
  }

  /** Power-on: the supplies, the reset pulse, then the panel. */
  function PowerOnEvents(gpio: int): seq<Event>
  {
    [RegulatorsEnable(SUPPLIES)] + ResetEvents(gpio) + [PanelEnable, Sleep(40)]
  }

  /** Power-off: the reset pulse, the panel, then the supplies. */
  function PowerOffEvents(gpio: int): seq<Event>
  {
    ResetEvents(gpio) + [PanelDisable, Sleep(40), RegulatorsDisable(SUPPLIES)]
  }

  /** The panel's enable callback: power-on, then init. */
  function EnableEvents(dsi: DsiDevice, gpio: int): seq<Event>
  {
    PowerOnEvents(gpio) + InitEvents(dsi)
  }

  lemma AppendAssoc<T>(a: seq<T>, b: seq<T>, c: seq<T>)
    ensures (a + b) + c == a + (b + c)
  {
  }

  /** Events of a concatenated program are the concatenated events. */
  lemma ProgramEventsSplit(dsi: DsiDevice, p: seq<RegWrite>, q: seq<RegWrite>)
    ensures ProgramEvents(dsi, p + q) == ProgramEvents(dsi, p) + ProgramEvents(dsi, q)
  {
  }

  /** The init program's events are those of its three phases. */
  lemma InitProgramPhases(dsi: DsiDevice)
    ensures ProgramEvents(dsi, INIT_PROGRAM) == ProgramEvents(dsi, INIT_PROGRAM[..10])
      + (ProgramEvents(dsi, INIT_PROGRAM[10..14]) + ProgramEvents(dsi, INIT_PROGRAM[14..]))
  {
    assert INIT_PROGRAM[10..] == INIT_PROGRAM[10..14] + INIT_PROGRAM[14..];
    ProgramEventsSplit(dsi, INIT_PROGRAM[10..14], INIT_PROGRAM[14..]);
    assert INIT_PROGRAM == INIT_PROGRAM[..10] + INIT_PROGRAM[10..];
    ProgramEventsSplit(dsi, INIT_PROGRAM[..10], INIT_PROGRAM[10..]);
  }

  /** The events of the DSI phase of the init program, write by write. */
  lemma ProgramEventsOfDsiSetup(dsi: DsiDevice)
    ensures ProgramEvents(dsi, INIT_PROGRAM[..10]) == []
      + WriteEvents(dsi, PPI_TX_RX_TA, 0x2_0003)
      + WriteEvents(dsi, PPI_LPTXTIMECNT, 2)
      + WriteEvents(dsi, PPI_D0S_CLRSIPOCOUNT, 5)
      + WriteEvents(dsi, PPI_D1S_CLRSIPOCOUNT, 5)
      + WriteEvents(dsi, PPI_D2S_CLRSIPOCOUNT, 5)
      + WriteEvents(dsi, PPI_D3S_CLRSIPOCOUNT, 5)
      + WriteEvents(dsi, PPI_LANEENABLE, 0x1F)
      + WriteEvents(dsi, DSI_LANEENABLE, 0x1F)
      + WriteEvents(dsi, PPI_STARTPPI, 1)
      + WriteEvents(dsi, DSI_STARTDSI, 1)
  {
  }

  /** The events of the video phase of the init program, write by write. */
  lemma ProgramEventsOfVideoSetup(dsi: DsiDevice)
    ensures ProgramEvents(dsi, INIT_PROGRAM[10..14]) == []
      + WriteEvents(dsi, VP_CTRL, 0x00FA_0120)
      + WriteEvents(dsi, LV_PHY0, 0x44_8006)
      + WriteEvents(dsi, LV_PHY0, 0x04_8006)
      + WriteEvents(dsi, SYS_RST, 4)
  {
  }

  /** The events of the bit-order phase of the init program, write by write. */
  lemma ProgramEventsOfBitOrder(dsi: DsiDevice)
    ensures ProgramEvents(dsi, INIT_PROGRAM[14..]) == []
      + WriteEvents(dsi, LV_MX0003, 0x0302_0100)
      + WriteEvents(dsi, LV_MX0407, 0x0805_0704)
      + WriteEvents(dsi, LV_MX0811, 0x0F0E_0A09)
      + WriteEvents(dsi, LV_MX1215, 0x100D_0C0B)
      + WriteEvents(dsi, LV_MX1619, 0x1211_1716)
      + WriteEvents(dsi, LV_MX2023, 0x1B15_1413)
      + WriteEvents(dsi, LV_MX2427, 0x061A_1918)
      + WriteEvents(dsi, LV_CFG, 0xD)
  {
  }

  // ---------------------------------------------------------------------
  // The driver object

  class Tc358764 {
    /** The DSI device the driver is bound to. */
    const dsi: DsiDevice
    /** The regulator framework behind the five supplies. */
    const regulators: RegulatorOps
    /** The reset line. */
    const resetGpio: int
    /** Every call into the kernel so far, oldest first. */
    var trace: seq<Event>

    constructor(dsi: DsiDevice, regulators: RegulatorOps, resetGpio: int)
      ensures this.dsi == dsi && this.regulators == regulators && this.resetGpio == resetGpio
      ensures trace == []
    {
      this.dsi := dsi;
      this.regulators := regulators;
      this.resetGpio := resetGpio;
      trace := [];
    }

    /** Hands `msg` to the host; answers what the host answers. */
    method TransferMsg(msg: Msg) returns (reply: Reply)
      requires CanTransfer(dsi)
      modifies this
      ensures reply == dsi.ops.value.transfer.value(old(trace), msg)
      ensures trace == old(trace) + [Transfer(msg)]
    {
      reply := dsi.ops.value.transfer.value(trace, msg);
      trace := trace + [Transfer(msg)];
    }

    /** `tc358764_read`: reads register `addr` into the buffer that holds
     *  `val`; `v` is the buffer afterwards. */
    method Read(addr: u16, val: u32) returns (ret: int, v: u32)
      modifies this
      ensures trace == old(trace) + ReadEvents(dsi, addr)
      ensures !CanTransfer(dsi) ==> ret == -ENOSYS && v == val
      ensures CanTransfer(dsi) ==>
        var reply := dsi.ops.value.transfer.value(old(trace), ReadMsg(dsi.channel, addr));
        ret == reply.ret && v == if reply.ret >= 0 then Received(reply.rx, val) else val
    {
      if !CanTransfer(dsi) {
        return -ENOSYS, val;
      }
      var msg := Msg(GenericRead2Param, dsi.channel, {UseLpm}, AddrBytes(addr), 4);
      var reply := TransferMsg(msg);
      ret := reply.ret;
      v := val;
      if ret >= 0 {
        v := Received(reply.rx, val);
      }
    }

    /** `tc358764_write`: writes `val` to register `addr` through a 6-byte
     *  buffer filled byte by byte. */
    method Write(addr: u16, val: u32) returns (ret: int)
      modifies this
      ensures trace == old(trace) + WriteEvents(dsi, addr, val)
      ensures !CanTransfer(dsi) ==> ret == -ENOSYS
      ensures CanTransfer(dsi) ==>
        ret == dsi.ops.value.transfer.value(old(trace), WriteMsg(dsi.channel, addr, val)).ret
    {
      if !CanTransfer(dsi) {
        return -ENOSYS;
      }
      var data := new u8[6];
      data[0] := addr % 256;
      data[1] := Shr(addr, 8) % 256;
      data[2] := val % 256;
      data[3] := Shr(val, 8) % 256;
      data[4] := Shr(val, 16) % 256;
      data[5] := Shr(val, 24) % 256;
      Pow2Table();
      var msg := Msg(GenericLongWrite, dsi.channel, {UseLpm, ReqAck}, data[..], 0);
      assert msg == WriteMsg(dsi.channel, addr, val);
      var reply := TransferMsg(msg);
      ret := reply.ret;
    }

    /** `tc358764_init`: the ID read, then the 22 configuration writes; the
     *  results of the transfers are not looked at and the call always
     *  succeeds. */
    method Init() returns (ret: int)
      modifies this
      ensures ret == 0
      ensures trace == old(trace) + InitEvents(dsi)
    {
      var v: u32 := 0;
      var r;
      r, v := Read(SYS_ID, v);     // the ID only goes to the kernel log
      ghost var t1 := trace;
      ConfigureDsi();
      ghost var t2 := trace;
      ConfigureVideo();
      ConfigureBitOrder();
      InitProgramPhases(dsi);
      AppendAssoc(t2, ProgramEvents(dsi, INIT_PROGRAM[10..14]), ProgramEvents(dsi, INIT_PROGRAM[14..]));
      AppendAssoc(t1, ProgramEvents(dsi, INIT_PROGRAM[..10]), ProgramEvents(dsi, INIT_PROGRAM[10..14]) + ProgramEvents(dsi, INIT_PROGRAM[14..]));
      AppendAssoc(old(trace), ReadEvents(dsi, SYS_ID), ProgramEvents(dsi, INIT_PROGRAM));
      return 0;
    }

    /** The first ten writes of `tc358764_init`: the DSI receiver's PPI
     *  counters, its lanes, and its start. */
    method ConfigureDsi()
      modifies this
      ensures trace == old(trace) + ProgramEvents(dsi, INIT_PROGRAM[..10])
    {
      ghost var t0 := trace;
      ghost var ev: seq<Event> := [];

      // configure PPI counters
      ev := InitWrite(PPI_TX_RX_TA, 0x2_0003, t0, ev);
      ev := InitWrite(PPI_LPTXTIMECNT, 2, t0, ev);
      ev := InitWrite(PPI_D0S_CLRSIPOCOUNT, 5, t0, ev);
      ev := InitWrite(PPI_D1S_CLRSIPOCOUNT, 5, t0, ev);
      ev := InitWrite(PPI_D2S_CLRSIPOCOUNT, 5, t0, ev);
      ev := InitWrite(PPI_D3S_CLRSIPOCOUNT, 5, t0, ev);

      // four data lanes and the clock lane
      ev := InitWrite(PPI_LANEENABLE, 0x1F, t0, ev);
      ev := InitWrite(DSI_LANEENABLE, 0x1F, t0, ev);

      // start
      ev := InitWrite(PPI_STARTPPI, 1, t0, ev);
      ev := InitWrite(DSI_STARTDSI, 1, t0, ev);

      ProgramEventsOfDsiSetup(dsi);
    }

    /** Writes 10 to 13 of the init program, numbered from 0: the video
     *  path, the LVDS PHY reset and the bridge reset. */
    method ConfigureVideo()
      modifies this
      ensures trace == old(trace) + ProgramEvents(dsi, INIT_PROGRAM[10..14])
    {
      ghost var t0 := trace;
      ghost var ev: seq<Event> := [];

      // video path
      VpCtrlValue();
      var vp := Or(Or(Or(Or(VpCtrlVsDelay(15), VpCtrlRgb888(1)), VpCtrlEvtMode(1)), BitValue(17)), BitValue(19));
      ev := InitWrite(VP_CTRL, vp, t0, ev);

      // PHY reset, asserted then released
      LvPhy0Values();
      var phy1 := Or(Or(Or(LvPhy0Rst(1), BitValue(18)), LvPhy0Is(2)), LvPhy0Nd(6));
      ev := InitWrite(LV_PHY0, phy1, t0, ev);
      var phy2 := Or(Or(BitValue(18), LvPhy0Is(2)), LvPhy0Nd(6));
      ev := InitWrite(LV_PHY0, phy2, t0, ev);

      // bridge reset
      var rst := BitValue(2);
      ev := InitWrite(SYS_RST, rst, t0, ev);

      ProgramEventsOfVideoSetup(dsi);
    }

    /** The last eight writes of `tc358764_init`: the LVDS bit order and
     *  the LVDS configuration. */
    method ConfigureBitOrder()
      modifies this
      ensures trace == old(trace) + ProgramEvents(dsi, INIT_PROGRAM[14..])
    {
      ghost var t0 := trace;
      ghost var ev: seq<Event> := [];

      // bit order
      var mx0 := LvMx(LVI_R0, LVI_R1, LVI_R2, LVI_R3);
      ev := InitWrite(LV_MX0003, mx0, t0, ev);
      var mx1 := LvMx(LVI_R4, LVI_R7, LVI_R5, LVI_G0);
      ev := InitWrite(LV_MX0407, mx1, t0, ev);
      var mx2 := LvMx(LVI_G1, LVI_G2, LVI_G6, LVI_G7);
      ev := InitWrite(LV_MX0811, mx2, t0, ev);
      var mx3 := LvMx(LVI_G3, LVI_G4, LVI_G5, LVI_B0);
      ev := InitWrite(LV_MX1215, mx3, t0, ev);
      var mx4 := LvMx(LVI_B6, LVI_B7, LVI_B1, LVI_B2);
      ev := InitWrite(LV_MX1619, mx4, t0, ev);
      var mx5 := LvMx(LVI_B3, LVI_B4, LVI_B5, LVI_L0);
      ev := InitWrite(LV_MX2023, mx5, t0, ev);
      var mx6 := LvMx(LVI_HS, LVI_VS, LVI_DE, LVI_R6);
      ev := InitWrite(LV_MX2427, mx6, t0, ev);
      ev := InitWrite(LV_CFG, 0xD, t0, ev);

      MuxTableWords();
      ProgramEventsOfBitOrder(dsi);
    }

    /** One `tc358764_write` of the init step, whose result is dropped;
     *  `ev` is what the init step has written since `t0`. */
    method InitWrite(addr: u16, val: u32, ghost t0: seq<Event>, ghost ev: seq<Event>) returns (ghost ev': seq<Event>)
      requires trace == t0 + ev
      modifies this
      ensures ev' == ev + WriteEvents(dsi, addr, val)
      ensures trace == t0 + ev'
    {
      var r := Write(addr, val);
      AppendAssoc(t0, ev, WriteEvents(dsi, addr, val));
      ev' := ev + WriteEvents(dsi, addr, val);
    }

    /** `msleep`. */
    method Msleep(ms: nat)
      modifies this
      ensures trace == old(trace) + [Sleep(ms)]
    {
      trace := trace + [Sleep(ms)];
    }

    /** `gpio_set_value` on the reset line. */
    method SetResetLine(level: nat)
      modifies this
      ensures trace == old(trace) + [GpioSet(resetGpio, level)]
    {
      trace := trace + [GpioSet(resetGpio, level)];
    }

    /** `tc358764_reset`: the reset line low for 20 ms, then high. */
    method Reset()
      modifies this
      ensures trace == old(trace) + ResetEvents(resetGpio)
    {
      Msleep(20);
      SetResetLine(0);
      Msleep(20);
      SetResetLine(1);
      Msleep(40);
    }

    /** `tc358764_poweron`: a failure of the supplies is only logged. */
    method PowerOn()
      modifies this
      ensures trace == old(trace) + PowerOnEvents(resetGpio)
    {
      var ret := regulators.enable(trace);
      trace := trace + [RegulatorsEnable(SUPPLIES)];
      // ret < 0 only goes to the kernel log
      Reset();
      trace := trace + [PanelEnable];
      Msleep(40);
    }

    /** `tc358764_poweroff`: a failure of the supplies is only logged. */
    method PowerOff()
      modifies this
      ensures trace == old(trace) + PowerOffEvents(resetGpio)
    {
      Reset();
      trace := trace + [PanelDisable];
      Msleep(40);
      var ret := regulators.disable(trace);
      trace := trace + [RegulatorsDisable(SUPPLIES)];
      // ret < 0 only goes to the kernel log
    }

    /** `tc358764_disable`. */
    method Disable() returns (ret: int)
      modifies this
      ensures ret == 0
      ensures trace == old(trace) + PowerOffEvents(resetGpio)
      ensures TransfersReady(old(trace), resetGpio) ==> TransfersReady(trace, resetGpio)
    {
      PowerOff();
      if TransfersReady(old(trace), resetGpio) {
        DisableKeepsReady(old(trace), resetGpio);
      }
      return 0;
    }

    /** `tc358764_enable`: power-on, then init; answers what init answers. */
    method Enable() returns (ret: int)
      modifies this
      ensures ret == 0
      ensures trace == old(trace) + EnableEvents(dsi, resetGpio)
      ensures forall i :: |old(trace)| <= i < |trace| && trace[i].Transfer? ==> Ready(trace[..i], resetGpio)
      ensures TransfersReady(old(trace), resetGpio) ==> TransfersReady(trace, resetGpio)
    {
      PowerOn();
      ret := Init();
      EnableTransfersReady(old(trace), dsi, resetGpio);
      if TransfersReady(old(trace), resetGpio) {
        EnableKeepsReady(old(trace), dsi, resetGpio);
      }
    }
  }

  // ---------------------------------------------------------------------
  // The state of the world a trace leaves behind

  /** Whether the last regulator call of `t` was an enable (`Some(true)`)
   *  or a disable (`Some(false)`); `None` if there was none. */
  function LastRegulatorCall(t: seq<Event>): Option<bool>
  {
    if t == [] then None
    else match t[|t| - 1]
      case RegulatorsEnable(_) => Some(true)
      case RegulatorsDisable(_) => Some(false)
      case _ => LastRegulatorCall(t[..|t| - 1])
  }

  /** The level `t` last drove line `gpio` to, if any. */
  function LineLevel(t: seq<Event>, gpio: int): Option<nat>
  {
    if t == [] then None
    else match t[|t| - 1]
      case GpioSet(g, l) => if g == gpio then Some(l) else LineLevel(t[..|t| - 1], gpio)
      case _ => LineLevel(t[..|t| - 1], gpio)
  }

  /** The milliseconds slept since `t` last drove line `gpio` (since the
   *  start, if it never did). */
  function SleptSince(t: seq<Event>, gpio: int): nat
  {
    if t == [] then 0
    else match t[|t| - 1]
      case GpioSet(g, _) => if g == gpio then 0 else SleptSince(t[..|t| - 1], gpio)
      case Sleep(ms) => SleptSince(t[..|t| - 1], gpio) + ms
      case _ => SleptSince(t[..|t| - 1], gpio)
  }

  /** The bridge may be talked to after `h`: the supplies were last
   *  switched on, the reset line was last driven high, and at least 40 ms
   *  have been slept since. */
  predicate Ready(h: seq<Event>, gpio: int)
  {
    LastRegulatorCall(h) == Some(true) && LineLevel(h, gpio) == Some(1) && SleptSince(h, gpio) >= 40
  }

  /** Every transfer in `t` happens when the bridge is ready. */
  predicate TransfersReady(t: seq<Event>, gpio: int)
  {
    forall i :: 0 <= i < |t| && t[i].Transfer? ==> Ready(t[..i], gpio)
  }

  /** All events of `x` are transfers. */
  predicate OnlyTransfers(x: seq<Event>)
  {
    forall k :: 0 <= k < |x| ==> x[k].Transfer?
  }

  /** The register access each event carries: the decoded message of a
   *  transfer, `None` for every other event. */
  function Accesses(t: seq<Event>): (r: seq<Option<Access>>)
    ensures |r| == |t|
  {
    seq(|t|, i requires 0 <= i < |t| => if t[i].Transfer? then Decode(t[i].msg) else None)
  }

  /** The writes a register program asks for, in order. */
  function ProgramWrites(prog: seq<RegWrite>): seq<Option<Access>>
  {
    seq(|prog|, i requires 0 <= i < |prog| => Some(Write(prog[i].addr, prog[i].val)))
  }

  /** On the wire, a program's events are exactly its register writes, in
   *  order; without a transfer operation nothing goes out. */
  lemma ProgramAccesses(dsi: DsiDevice, prog: seq<RegWrite>)
    ensures CanTransfer(dsi) ==> Accesses(ProgramEvents(dsi, prog)) == ProgramWrites(prog)
    ensures !CanTransfer(dsi) ==> ProgramEvents(dsi, prog) == []
  {
    if CanTransfer(dsi) {
      var e := ProgramEvents(dsi, prog);
      forall i | 0 <= i < |prog|
        ensures Accesses(e)[i] == ProgramWrites(prog)[i]
      {
        WriteMsgDecodes(dsi.channel, prog[i].addr, prog[i].val);
      }
    }
  }

  /** The init step, as register accesses: the ID read, then the 22 writes
   *  of the init program. */
  lemma InitAccesses(dsi: DsiDevice)
    ensures CanTransfer(dsi) ==>
      Accesses(InitEvents(dsi)) == [Some(Read(SYS_ID))] + ProgramWrites(INIT_PROGRAM)
    ensures !CanTransfer(dsi) ==> InitEvents(dsi) == []
  {
    ProgramAccesses(dsi, INIT_PROGRAM);
    if CanTransfer(dsi) {
      ReadMsgDecodes(dsi.channel, SYS_ID);
      var r, p := ReadEvents(dsi, SYS_ID), ProgramEvents(dsi, INIT_PROGRAM);
      assert Accesses(r + p) == Accesses(r) + Accesses(p);
    }
  }

  /** No event of `x` is a transfer. */
  predicate NoTransfers(x: seq<Event>)
  {
    forall k :: 0 <= k < |x| ==> !x[k].Transfer?
  }

  /** One more event moves the three observations as their definitions
   *  say. */
  lemma Snoc(t: seq<Event>, e: Event, gpio: int)
    ensures LastRegulatorCall(t + [e]) ==
      match e
      case RegulatorsEnable(_) => Some(true)
      case RegulatorsDisable(_) => Some(false)
      case _ => LastRegulatorCall(t)
    ensures LineLevel(t + [e], gpio) ==
      if e.GpioSet? && e.gpio == gpio then Some(e.level) else LineLevel(t, gpio)
    ensures SleptSince(t + [e], gpio) ==
      if e.GpioSet? && e.gpio == gpio then 0
      else if e.Sleep? then SleptSince(t, gpio) + e.ms
      else SleptSince(t, gpio)
  {
    assert (t + [e])[..|t + [e]| - 1] == t;
  }

  /** What a trace `a + b` leaves behind: `b`'s own observation where `b`
   *  makes one, `a`'s otherwise; time slept adds up until `b` drives the
   *  line. */
  lemma {:induction false} StateOfAppend(a: seq<Event>, b: seq<Event>, gpio: int)
    ensures LastRegulatorCall(a + b) ==
      if LastRegulatorCall(b).Some? then LastRegulatorCall(b) else LastRegulatorCall(a)
    ensures LineLevel(a + b, gpio) ==
      if LineLevel(b, gpio).Some? then LineLevel(b, gpio) else LineLevel(a, gpio)
    ensures SleptSince(a + b, gpio) ==
      if LineLevel(b, gpio).Some? then SleptSince(b, gpio) else SleptSince(a, gpio) + SleptSince(b, gpio)
    decreases |b|
  {
    if b == [] {
      assert a + b == a;
    } else {
      var c, e := b[..|b| - 1], b[|b| - 1];
      assert b == c + [e];
      assert a + b == (a + c) + [e];
      StateOfAppend(a, c, gpio);
      Snoc(a + c, e, gpio);
      Snoc(c, e, gpio);
    }
  }

  /** Transfers change neither the supplies, nor the reset line, nor the
   *  time slept. */
  lemma {:induction false} TransfersAreNeutral(a: seq<Event>, x: seq<Event>, gpio: int)
    requires OnlyTransfers(x)
    ensures LastRegulatorCall(a + x) == LastRegulatorCall(a)
    ensures LineLevel(a + x, gpio) == LineLevel(a, gpio)
    ensures SleptSince(a + x, gpio) == SleptSince(a, gpio)
    decreases |x|
  {
    if x == [] {
      assert a + x == a;
    } else {
      var y, e := x[..|x| - 1], x[|x| - 1];
      assert x == y + [e];
      assert a + x == (a + y) + [e];
      TransfersAreNeutral(a, y, gpio);
      Snoc(a + y, e, gpio);
    }
  }

  /** The init step talks to the bridge and does nothing else. */
  lemma InitEventsAreTransfers(dsi: DsiDevice)
    ensures OnlyTransfers(InitEvents(dsi))
  {
  }

  /** After anything, power-on leaves the bridge ready: supplies on, the
   *  reset line high, and 80 ms slept since it went high. */
  lemma PowerOnMakesReady(t: seq<Event>, gpio: int)
    ensures LastRegulatorCall(t + PowerOnEvents(gpio)) == Some(true)
    ensures LineLevel(t + PowerOnEvents(gpio), gpio) == Some(1)
    ensures SleptSince(t + PowerOnEvents(gpio), gpio) == 80
    ensures Ready(t + PowerOnEvents(gpio), gpio)
  {
    var p1 := t + [RegulatorsEnable(SUPPLIES)];
    var p2 := p1 + [Sleep(20)];
    var p3 := p2 + [GpioSet(gpio, 0)];
    var p4 := p3 + [Sleep(20)];
    var p5 := p4 + [GpioSet(gpio, 1)];
    var p6 := p5 + [Sleep(40)];
    var p7 := p6 + [PanelEnable];
    var p8 := p7 + [Sleep(40)];
    assert p8 == t + PowerOnEvents(gpio);
    Snoc(t, RegulatorsEnable(SUPPLIES), gpio);
    Snoc(p1, Sleep(20), gpio);
    Snoc(p2, GpioSet(gpio, 0), gpio);
    Snoc(p3, Sleep(20), gpio);
    Snoc(p4, GpioSet(gpio, 1), gpio);
    Snoc(p5, Sleep(40), gpio);
    Snoc(p6, PanelEnable, gpio);
    Snoc(p7, Sleep(40), gpio);
  }

  /** After the disable callback the supplies were last switched off and
   *  the reset line is left high. */
  lemma PowerOffLeavesOff(t: seq<Event>, gpio: int)
    ensures LastRegulatorCall(t + PowerOffEvents(gpio)) == Some(false)
    ensures LineLevel(t + PowerOffEvents(gpio), gpio) == Some(1)
    ensures !Ready(t + PowerOffEvents(gpio), gpio)
  {
    var p1 := t + [Sleep(20)];
    var p2 := p1 + [GpioSet(gpio, 0)];
    var p3 := p2 + [Sleep(20)];
    var p4 := p3 + [GpioSet(gpio, 1)];
    var p5 := p4 + [Sleep(40)];
    var p6 := p5 + [PanelDisable];
    var p7 := p6 + [Sleep(40)];
    var p8 := p7 + [RegulatorsDisable(SUPPLIES)];
    assert p8 == t + PowerOffEvents(gpio);
    Snoc(t, Sleep(20), gpio);
    Snoc(p1, GpioSet(gpio, 0), gpio);
    Snoc(p2, Sleep(20), gpio);
    Snoc(p3, GpioSet(gpio, 1), gpio);
    Snoc(p4, Sleep(40), gpio);
    Snoc(p5, PanelDisable, gpio);
    Snoc(p6, Sleep(40), gpio);
    Snoc(p7, RegulatorsDisable(SUPPLIES), gpio);
  }

  /** Power-on and power-off make no transfer. */
  lemma PowerEventsAreNotTransfers(gpio: int)
    ensures NoTransfers(PowerOnEvents(gpio))
    ensures NoTransfers(PowerOffEvents(gpio))
  {
  }

  /** Appending events that are no transfers keeps every transfer behind
   *  a ready bridge. */
  lemma AppendNoTransfers(t: seq<Event>, p: seq<Event>, gpio: int)
    requires TransfersReady(t, gpio)
    requires NoTransfers(p)
    ensures TransfersReady(t + p, gpio)
  {
    var e := t + p;
    forall i | 0 <= i < |e| && e[i].Transfer?
      ensures Ready(e[..i], gpio)
    {
      if i < |t| {
        assert e[..i] == t[..i];
      }
    }
  }

  /** Every transfer the enable callback makes finds the bridge ready,
   *  whatever came before: the init step's transfers all come after the
   *  supplies went on and the reset line went high 80 ms before. */
  lemma EnableTransfersReady(t: seq<Event>, dsi: DsiDevice, gpio: int)
    ensures var e := t + EnableEvents(dsi, gpio);
      forall i :: |t| <= i < |e| && e[i].Transfer? ==> Ready(e[..i], gpio)
  {
    var p := PowerOnEvents(gpio);
    var x := InitEvents(dsi);
    var e := t + EnableEvents(dsi, gpio);
    assert e == (t + p) + x;
    PowerEventsAreNotTransfers(gpio);
    PowerOnMakesReady(t, gpio);
    InitEventsAreTransfers(dsi);
    forall i | |t| <= i < |e| && e[i].Transfer?
      ensures Ready(e[..i], gpio)
    {
      if i >= |t + p| {
        var j := i - |t + p|;
        assert e[..i] == (t + p) + x[..j];
        TransfersAreNeutral(t + p, x[..j], gpio);
      }
    }
  }

  /** The enable callback keeps every transfer behind a ready bridge. */
  lemma EnableKeepsReady(t: seq<Event>, dsi: DsiDevice, gpio: int)
    requires TransfersReady(t, gpio)
    ensures TransfersReady(t + EnableEvents(dsi, gpio), gpio)
  {
    var e := t + EnableEvents(dsi, gpio);
    EnableTransfersReady(t, dsi, gpio);
    forall i | 0 <= i < |e| && e[i].Transfer?
      ensures Ready(e[..i], gpio)
    {
      if i < |t| {
        assert e[..i] == t[..i];
      }
    }
  }

  /** The disable callback makes no transfer. */
  lemma DisableKeepsReady(t: seq<Event>, gpio: int)
    requires TransfersReady(t, gpio)
    ensures TransfersReady(t + PowerOffEvents(gpio), gpio)
  {
    PowerEventsAreNotTransfers(gpio);
    AppendNoTransfers(t, PowerOffEvents(gpio), gpio);
  }
}
