# TC358764 DSI-to-LVDS bridge driver, modelled in Dafny

This project models the Linux panel driver for the Toshiba TC358764, a bridge that takes a
MIPI-DSI video stream and drives an LVDS panel. The driver sits between the DSI host and the
downstream LVDS panel. When the panel is enabled it powers the bridge up, pulses its reset
line and programs it through 22 register writes. When the panel is disabled it pulses the
reset line again and powers the bridge down.

The model has four modules:

- `Bits` (`bits.dfy`): 32-bit register words as naturals below 2^32. It covers C's `<<`, `>>`,
  `&` and `|` on them, and the driver's `FLD_MASK`/`FLD_VAL` field macros with the bit field
  each one fills.
- `Registers` (`registers.dfy`):
  - the register addresses and the LVDS input-bit numbers;
  - the `VP_CTRL`, `LV_PHY0` and `LV_MX` field macros;
  - the init program as a table of 22 address/value pairs.

  The macro expressions of `tc358764_init` are proved to produce exactly those values. The
  seven mux words are proved to route the 28 LVDS input bits as a permutation.
- `Codec` (`codec.dfy`):
  - the DSI messages the driver builds: a generic read with two parameters, and a generic long
    write carrying a 6-byte payload;
  - the little-endian byte layout of the address and the value;
  - a decoder that turns a message back into the register access it carries;
  - how a read reply becomes the register value.
- `Bridge` (`bridge.dfy`): the driver object `Tc358764`.
  - Its methods are `tc358764_read`, `tc358764_write`, `tc358764_init`, `tc358764_reset`,
    `tc358764_poweron`, `tc358764_poweroff` and the `enable`/`disable` callbacks.
  - Each call into the kernel is appended to the object's `trace` as an `Event`: a DSI
    transfer, a regulator bulk enable or disable, a GPIO write, an `msleep`, or the downstream
    panel's enable or disable.
  - The host's transfer operation and the regulator framework are functions that answer from
    the trace so far.
  - Lemmas over traces show that every transfer the enable callback makes happens when the
    bridge is ready, whatever the history before it: the supplies were last switched on, the
    reset line was last driven high, and at least 40 ms have passed since. They also show that
    disable makes no transfer.

Four points of the driver's behaviour shape the model:

- `tc358764_init` never aborts. It ignores every write result and always returns 0, so
  `Enable` always answers 0.
- There is no lifecycle state (off, powered, configured) in the driver. The model recovers
  such a state from the trace instead: `LastRegulatorCall`, `LineLevel`, `SleptSince`.
- A failing regulator call is only logged. Power-on and power-off carry on regardless.
- `tc358764_read` does not check how many bytes the reply held.

`tc358764_init` is one function in the source. In the model its 22 writes are spread over three
methods: `ConfigureDsi` (the DSI receiver), `ConfigureVideo` (the video path, the PHY reset and
the bridge reset) and `ConfigureBitOrder` (the LVDS bit order and configuration). `Init` calls
them in order. The order of writes and the values written are unchanged.

## Model

| member | source | states |
|---|---|---|
| Bits.FldMask | drivers/gpu/drm/panel/panel-tc358764.c:25 | the mask has ones exactly in bits `end`..`start`: (2^(start-end+1) - 1) * 2^end |
| Bits.FldVal | drivers/gpu/drm/panel/panel-tc358764.c:26 | the value is `val` cut to the field's width and moved to bit `end`; it lies below bit `start+1`, has nothing below bit `end`, and reading the field back gives `val` modulo its width |
| Registers.VpCtrlEvtMode | drivers/gpu/drm/panel/panel-tc358764.c:46 | `v` cut to 1 bit and placed at bit 5: (v mod 2) * 0x20; bit 5 reads back v mod 2 |
| Registers.VpCtrlRgb888 | drivers/gpu/drm/panel/panel-tc358764.c:47 | `v` cut to 1 bit and placed at bit 8: (v mod 2) * 0x100; bit 8 reads back v mod 2 |
| Registers.VpCtrlVsDelay | drivers/gpu/drm/panel/panel-tc358764.c:48 | `v` cut to 12 bits and placed at bit 20: (v mod 0x1000) * 0x100000; bits 31..20 read back v mod 0x1000 |
| Registers.LvPhy0Rst | drivers/gpu/drm/panel/panel-tc358764.c:108 | `v` cut to 1 bit and placed at bit 22: (v mod 2) * 0x400000; bit 22 reads back v mod 2 |
| Registers.LvPhy0Is | drivers/gpu/drm/panel/panel-tc358764.c:109 | `v` cut to 2 bits and placed at bit 14: (v mod 4) * 0x4000; bits 15..14 read back v mod 4 |
| Registers.LvPhy0Nd | drivers/gpu/drm/panel/panel-tc358764.c:110 | `v` cut to 5 bits in bits 4..0: v mod 32, which reads back from bits 4..0 |
| Registers.LvMx | drivers/gpu/drm/panel/panel-tc358764.c:71-72 | the mux word is the four input numbers, each cut to 5 bits, placed at bytes 0 to 3 |
| Registers.LvMxSlots | drivers/gpu/drm/panel/panel-tc358764.c:71-72 | each of the four 5-bit slots of the mux word reads back its input number modulo 32, and the three bits above each slot are zero |
| Registers.VpCtrlValue | drivers/gpu/drm/panel/panel-tc358764.c:208-209 | VSYNC delay 15, RGB888, event mode, bit 17 and bit 19 together make the word 0x00FA0120 |
| Registers.LvPhy0Values | drivers/gpu/drm/panel/panel-tc358764.c:212-214 | the two LV_PHY0 words are 0x448006 (reset asserted) and 0x048006 (reset released) |
| Registers.PhyResetPair | drivers/gpu/drm/panel/panel-tc358764.c:212-214 | the two LV_PHY0 writes differ only in the PHY reset bit 22: it is 1 in the first write and 0 in the second |
| Registers.MuxTableWords | drivers/gpu/drm/panel/panel-tc358764.c:220-226 | the seven `LV_MX(...)` expressions of the init step evaluate to the words 0x03020100, 0x08050704, 0x0F0E0A09, 0x100D0C0B, 0x12111716, 0x1B151413 and 0x061A1918 |
| Registers.MuxWordsArePackings | drivers/gpu/drm/panel/panel-tc358764.c:220-226 | the values of the init program's seven mux writes, steps 14 to 20, are exactly the driver's seven `LV_MX(...)` expressions |
| Registers.InitProgramOrder | drivers/gpu/drm/panel/panel-tc358764.c:184-230 | the init program has 22 writes, numbered from 0; LV_PHY0 is written exactly at steps 11 and 12, SYS_RST exactly at 13, the mux registers exactly at 14 to 20, and LV_CFG exactly at 21, the last step |
| Registers.MuxSlotsAreWiring | drivers/gpu/drm/panel/panel-tc358764.c:220-226 | read slot by slot, the seven mux words give the LVDS wiring table R0 R1 R2 R3 R4 R7 R5 G0 ... HS VS DE R6 |
| Registers.WiringIsPermutation | drivers/gpu/drm/panel/panel-tc358764.c:75-104 | the wiring names each of the 28 LVDS input bits exactly once |
| Codec.LeValueOfBytes | drivers/gpu/drm/panel/panel-tc358764.c:147-151 | decoding the little-endian bytes of a value that fits in n bytes gives the value back |
| Codec.LeBytesOfValue | drivers/gpu/drm/panel/panel-tc358764.c:147-151 | encoding the value of a byte string gives the byte string back |
| Codec.AddrBytesAreLittleEndian | drivers/gpu/drm/panel/panel-tc358764.c:137-147 | the read command's two parameter bytes are the address in little-endian order, as `cpu_to_le16` lays it out |
| Codec.WritePayloadLayout | drivers/gpu/drm/panel/panel-tc358764.c:172-177 | the write payload has 6 bytes: bytes 0 and 1 are the address's low and high bytes; bytes 2 to 5 are the value's bytes, lowest first |
| Codec.WritePayloadIsLittleEndian | drivers/gpu/drm/panel/panel-tc358764.c:172-177 | the write payload is the 2-byte little-endian address followed by the 4-byte little-endian value |
| Codec.ReadMsgDecodes | drivers/gpu/drm/panel/panel-tc358764.c:133-141 | the read command for `addr` decodes as a read of `addr` |
| Codec.WriteMsgDecodes | drivers/gpu/drm/panel/panel-tc358764.c:161-177 | the write command for `addr` and `val` decodes as a write of `val` to `addr` |
| Codec.DecodeDeterminesPayload | drivers/gpu/drm/panel/panel-tc358764.c:133-177 | a message that decodes to a read or a write has that command's packet type and exactly that command's payload bytes |
| Codec.Overlay | drivers/gpu/drm/panel/panel-tc358764.c:139-140 | the receive buffer keeps its 4-byte size; each byte the host sent replaces the byte in that position, and the rest keep their old contents |
| Codec.Received | drivers/gpu/drm/panel/panel-tc358764.c:149-151 | byte k of the value read is the k-th reply byte if the host sent one, else byte k of the old buffer; a reply of 4 or more bytes gives the little-endian value of its first 4 bytes |
| Bridge.Tc358764.Read | drivers/gpu/drm/panel/panel-tc358764.c:129-154 | with no transfer operation: -ENOSYS, the buffer unchanged and no event; otherwise one read-command transfer, the host's return value, and the received value only when that value is not negative |
| Bridge.Tc358764.Write | drivers/gpu/drm/panel/panel-tc358764.c:156-180 | with no transfer operation: -ENOSYS and no event; otherwise one long-write transfer of the 6-byte payload, answering what the host answers |
| Bridge.Tc358764.Init | drivers/gpu/drm/panel/panel-tc358764.c:184-230 | always 0; the trace grows by the ID read followed by the 22 writes of the init program |
| Bridge.Tc358764.ConfigureDsi | drivers/gpu/drm/panel/panel-tc358764.c:191-205 | the trace grows by the first ten writes of the init program: PPI counters, lane enables, start |
| Bridge.Tc358764.ConfigureVideo | drivers/gpu/drm/panel/panel-tc358764.c:207-217 | the trace grows by writes 10 to 13 of the init program, numbered from 0: VP_CTRL, the two LV_PHY0 writes, SYS_RST |
| Bridge.Tc358764.ConfigureBitOrder | drivers/gpu/drm/panel/panel-tc358764.c:219-227 | the trace grows by the last eight writes of the init program: the seven mux registers and LV_CFG |
| Bridge.Tc358764.Reset | drivers/gpu/drm/panel/panel-tc358764.c:232-239 | the trace grows by: sleep 20, reset line low, sleep 20, reset line high, sleep 40 |
| Bridge.Tc358764.PowerOn | drivers/gpu/drm/panel/panel-tc358764.c:241-252 | the trace grows by: supplies on, the reset pulse, downstream panel enabled, sleep 40, whatever the regulators answered |
| Bridge.Tc358764.PowerOff | drivers/gpu/drm/panel/panel-tc358764.c:254-266 | the trace grows by: the reset pulse, downstream panel disabled, sleep 40, supplies off |
| Bridge.Tc358764.Disable | drivers/gpu/drm/panel/panel-tc358764.c:268-275 | always 0; the trace grows by the power-off events; if every earlier transfer found the bridge ready, so does every transfer afterwards |
| Bridge.Tc358764.Enable | drivers/gpu/drm/panel/panel-tc358764.c:277-284 | always 0, as init is; the trace grows by power-on then init; every transfer it makes finds the bridge ready, whatever came before; and if every earlier transfer found the bridge ready, so does every transfer afterwards |
| Bridge.ProgramAccesses | drivers/gpu/drm/panel/panel-tc358764.c:156-180 | decoded, the transfers of a run of writes are exactly its register writes in order; with no transfer operation nothing goes out |
| Bridge.InitAccesses | drivers/gpu/drm/panel/panel-tc358764.c:184-230 | decoded, the init step's transfers are a read of SYS_ID followed by the 22 writes of the init program in order; with no transfer operation nothing goes out |
| Bridge.PowerOnMakesReady | drivers/gpu/drm/panel/panel-tc358764.c:241-252 | after power-on, from any history: the supplies were last switched on, the reset line is high, and 80 ms have been slept since it went high |
| Bridge.PowerOffLeavesOff | drivers/gpu/drm/panel/panel-tc358764.c:254-266 | after power-off, from any history: the supplies were last switched off, the reset line is left high, and the bridge is not ready |
| Bridge.StateOfAppend | drivers/gpu/drm/panel/panel-tc358764.c:232-266 | the supply state, the line level and the time slept after a + b are b's where b sets them, and a's otherwise; the time slept adds up until b drives the line |
| Bridge.TransfersAreNeutral | drivers/gpu/drm/panel/panel-tc358764.c:184-230 | transfers change neither the supply state, nor the reset line, nor the time slept |
| Bridge.EnableTransfersReady | drivers/gpu/drm/panel/panel-tc358764.c:277-284 | from any history, every transfer the enable callback makes finds the bridge ready: supplies last switched on, reset line high, at least 40 ms slept since |
| Bridge.EnableKeepsReady | drivers/gpu/drm/panel/panel-tc358764.c:277-284 | if every transfer of a history found the bridge ready, the same holds after the enable callback: the init transfers all come after a complete power-on |
| Bridge.DisableKeepsReady | drivers/gpu/drm/panel/panel-tc358764.c:268-275 | the disable callback makes no transfer, so it keeps every transfer behind a ready bridge |

## Left out

- Probe, remove, device-tree parsing of the reset GPIO and the supplies, panel lookup and
  `get_modes` are outside the model. So are the registration of the DSI device and the
  bridge's `drm_panel`.
- Kernel logging (`dev_info` of the chip ID, `dev_err` on regulator failures) produces no event.
  The ID read's result is dropped, as the source drops it after logging.
- `msleep` becomes a `Sleep(ms)` event. Real time, scheduling and concurrency are not modelled.
- The return values of `regulator_bulk_enable`/`regulator_bulk_disable` are taken from the
  regulator oracle and then ignored, as in the source. `drm_panel_enable`/`drm_panel_disable`
  are events whose results the source ignores too.
- Bridge.Ready: it records that the last regulator call was an enable. It does not record that
  the call succeeded, because the driver itself does not depend on that.
- Bridge.Tc358764.Read: after a failed transfer the buffer is assumed unchanged. A host that
  writes part of the reply and then reports an error is not modelled.
- Bridge.Tc358764.Read: the old contents of the receive buffer are taken to be laid out
  little-endian, as on a little-endian CPU. This matters only for a reply shorter than 4 bytes,
  and in the init step the buffer holds 0.
- Bridge.Tc358764.Read and Bridge.Tc358764.Write return the host's `ssize_t` answer without
  truncating it to `int`.
- Bits.FldMask and Bits.FldVal require the field to be narrower than 32 bits. A field of the
  full width would shift `1` by 32 in C, which is undefined; the driver never uses one.
- The `VP_CTRL_MSF`, `VP_CTRL_VTGEN`, `VP_HTIM*`, `VP_VTIM*` and `VP_VFUEN` macros are defined
  in the source but never used by the driver, so they are not modelled.
- The DSI message's buffer pointers are replaced by the byte strings they point at. The host
  structure is replaced by its transfer operation and the device's channel.
