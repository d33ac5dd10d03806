/** Register map of the TC358764 bridge, its field macros and the register
 *  program the driver's init step writes. */
module Registers {
  import opened Bits

  // PPI layer registers
  const PPI_STARTPPI: u16 := 0x0104          // START control bit
  const PPI_LPTXTIMECNT: u16 := 0x0114       // LPTX timing signal
  const PPI_LANEENABLE: u16 := 0x0134        // enables each lane
  const PPI_TX_RX_TA: u16 := 0x013C          // BTA timing parameters
  const PPI_D0S_CLRSIPOCOUNT: u16 := 0x0164  // assertion timer for lane 0
  const PPI_D1S_CLRSIPOCOUNT: u16 := 0x0168  // assertion timer for lane 1
  const PPI_D2S_CLRSIPOCOUNT: u16 := 0x016C  // assertion timer for lane 2
  const PPI_D3S_CLRSIPOCOUNT: u16 := 0x0170  // assertion timer for lane 3

  // DSI layer registers
  const DSI_STARTDSI: u16 := 0x0204          // START control bit of DSI-TX
  const DSI_LANEENABLE: u16 := 0x0210        // enables each lane

  // Video path registers
  const VP_CTRL: u16 := 0x0450               // video path control

  // LVDS registers
  const LV_MX0003: u16 := 0x0480             // mux input bits 0 to 3
  const LV_MX0407: u16 := 0x0484             // mux input bits 4 to 7
  const LV_MX0811: u16 := 0x0488             // mux input bits 8 to 11
  const LV_MX1215: u16 := 0x048C             // mux input bits 12 to 15
  const LV_MX1619: u16 := 0x0490             // mux input bits 16 to 19
  const LV_MX2023: u16 := 0x0494             // mux input bits 20 to 23
  const LV_MX2427: u16 := 0x0498             // mux input bits 24 to 27
  const LV_CFG: u16 := 0x049C                // LVDS configuration
  const LV_PHY0: u16 := 0x04A0               // LVDS PHY 0

  // System registers
  const SYS_RST: u16 := 0x0504               // system reset
  const SYS_ID: u16 := 0x0580                // system ID

  /** The seven mux registers, in address order. */
  predicate IsMuxRegister(addr: u16)
  {
    addr in {LV_MX0003, LV_MX0407, LV_MX0811, LV_MX1215, LV_MX1619, LV_MX2023, LV_MX2427}
  }

  // Input bit numbers used in the mux registers (the C enum, in order)
  const LVI_R0: nat := 0
  const LVI_R1: nat := 1
  const LVI_R2: nat := 2
  const LVI_R3: nat := 3
  const LVI_R4: nat := 4
  const LVI_R5: nat := 5
  const LVI_R6: nat := 6
  const LVI_R7: nat := 7
  const LVI_G0: nat := 8
  const LVI_G1: nat := 9
  const LVI_G2: nat := 10
  const LVI_G3: nat := 11
  const LVI_G4: nat := 12
  const LVI_G5: nat := 13
  const LVI_G6: nat := 14
  const LVI_G7: nat := 15
  const LVI_B0: nat := 16
  const LVI_B1: nat := 17
  const LVI_B2: nat := 18
  const LVI_B3: nat := 19
  const LVI_B4: nat := 20
  const LVI_B5: nat := 21
  const LVI_B6: nat := 22
  const LVI_B7: nat := 23
  const LVI_HS: nat := 24
  const LVI_VS: nat := 25
  const LVI_DE: nat := 26
  const LVI_L0: nat := 27

  // Field macros used by the init program: each is `FLD_VAL` at its
  // field, so it keeps the low bits of its argument that fit the field
  // and moves them to the field's lowest bit.

  /** `VP_CTRL_EVTMODE(v)`: event mode, bit 5. */
  function VpCtrlEvtMode(v: nat): (r: u32)
    ensures r == (v % 2) * 0x20 && Field(r, 5, 5) == v % 2
  {
    Pow2Table();
    FldVal(v, 5, 5)
  }

  /** `VP_CTRL_RGB888(v)`: RGB888 mode, bit 8. */
  function VpCtrlRgb888(v: nat): (r: u32)
    ensures r == (v % 2) * 0x100 && Field(r, 8, 8) == v % 2
  {
    Pow2Table();
    FldVal(v, 8, 8)
  }

  /** `VP_CTRL_VSDELAY(v)`: the VSYNC delay, bits 31..20. */
  function VpCtrlVsDelay(v: nat): (r: u32)
    ensures r == (v % 0x1000) * 0x10_0000 && Field(r, 31, 20) == v % 0x1000
  {
    Pow2Table();
    FldVal(v, 31, 20)
  }

  /** `LV_PHY0_RST(v)`: the LVDS PHY reset, bit 22. */
  function LvPhy0Rst(v: nat): (r: u32)
    ensures r == (v % 2) * 0x40_0000 && Field(r, 22, 22) == v % 2
  {
    Pow2Table();
    FldVal(v, 22, 22)
  }

  /** `LV_PHY0_IS(v)`: bits 15..14. */
  function LvPhy0Is(v: nat): (r: u32)
    ensures r == (v % 4) * 0x4000 && Field(r, 15, 14) == v % 4
  {
    Pow2Table();
    FldVal(v, 15, 14)
  }

  /** `LV_PHY0_ND(v)`: bits 4..0. */
  function LvPhy0Nd(v: nat): (r: u32)
    ensures r == v % 32 && Field(r, 4, 0) == v % 32
  {
    Pow2Table();
    FldVal(v, 4, 0)
  }

  /** `LV_MX(b0, b1, b2, b3)`: the four input numbers in the 5-bit slots at
   *  bits 4..0, 12..8, 20..16 and 28..24. */
  function LvMx(b0: nat, b1: nat, b2: nat, b3: nat): (r: u32)
    ensures r == b0 % 32 + (b1 % 32) * 0x100 + (b2 % 32) * 0x1_0000 + (b3 % 32) * 0x100_0000
  {
    var f0, f1, f2, f3 := FldVal(b0, 4, 0), FldVal(b1, 12, 8), FldVal(b2, 20, 16), FldVal(b3, 28, 24);
    Pow2Table();
    Pow2Mono(5, 8);
    OrComm(f0, f1);
    OrHighLow(f1, f0, 8);
    OrComm(f0 + f1, f2);
    OrHighLow(f2, f0 + f1, 16);
    OrComm(f0 + f1 + f2, f3);
    OrHighLow(f3, f0 + f1 + f2, 24);
    Or(Or(Or(f0, f1), f2), f3)
  }

  /** Each slot of a mux word reads back as its input (cut to 5 bits), and
   *  bits 7..5 of every byte are clear. */
  lemma LvMxSlots(b0: nat, b1: nat, b2: nat, b3: nat)
    ensures var r := LvMx(b0, b1, b2, b3);
      Field(r, 4, 0) == b0 % 32 && Field(r, 12, 8) == b1 % 32 &&
      Field(r, 20, 16) == b2 % 32 && Field(r, 28, 24) == b3 % 32 &&
      Field(r, 7, 5) == 0 && Field(r, 15, 13) == 0 &&
      Field(r, 23, 21) == 0 && Field(r, 31, 29) == 0
  {
    var r := LvMx(b0, b1, b2, b3);
    var c0, c1, c2, c3 := b0 % 32, b1 % 32, b2 % 32, b3 % 32;
    Pow2Table();
    FieldAt(r, 0, 5, 0, c0, 8 * c1 + 0x800 * c2 + 0x8_0000 * c3);
    FieldAt(r, 5, 3, c0, 0, c1 + 0x100 * c2 + 0x1_0000 * c3);
    FieldAt(r, 8, 5, c0, c1, 8 * c2 + 0x800 * c3);
    FieldAt(r, 13, 3, c0 + 0x100 * c1, 0, c2 + 0x100 * c3);
    FieldAt(r, 16, 5, c0 + 0x100 * c1, c2, 8 * c3);
    FieldAt(r, 21, 3, c0 + 0x100 * c1 + 0x1_0000 * c2, 0, c3);
    FieldAt(r, 24, 5, c0 + 0x100 * c1 + 0x1_0000 * c2, c3, 0);
    FieldAt(r, 29, 3, c0 + 0x100 * c1 + 0x1_0000 * c2 + 0x100_0000 * c3, 0, 0);
  }

  /** `LV_MX` at a given value, from its contract. */
  lemma LvMxIs(b0: nat, b1: nat, b2: nat, b3: nat, v: nat)
    requires v == b0 % 32 + (b1 % 32) * 0x100 + (b2 % 32) * 0x1_0000 + (b3 % 32) * 0x100_0000
    ensures LvMx(b0, b1, b2, b3) == v
  {
  }

  /** The VP_CTRL word: VSYNC delay 15, RGB888, event mode, bits 17 and 19. */
  lemma VpCtrlValue()
    ensures Or(Or(Or(Or(VpCtrlVsDelay(15), VpCtrlRgb888(1)), VpCtrlEvtMode(1)), BitValue(17)), BitValue(19))
      == 0x00FA_0120
  {
    Pow2Table();
    FldValIs(15, 31, 20, 0xF0_0000);
    FldValIs(1, 8, 8, 0x100);
    FldValIs(1, 5, 5, 0x20);
    OrHighLow(0xF0_0000, 0x100, 12);
    OrHighLow(0xF0_0100, 0x20, 8);
    FieldAt(0xF0_0120, 17, 1, 0x120, 0, 60);
    OrSetBit(0xF0_0120, 17);
    FieldAt(0xF2_0120, 19, 1, 0x2_0120, 0, 15);
    OrSetBit(0xF2_0120, 19);
  }

  /** The two LV_PHY0 words: PHY reset asserted, then cleared; both with
   *  bit 18, interface speed 2 and 6 data lanes. */
  lemma LvPhy0Values()
    ensures Or(Or(Or(LvPhy0Rst(1), BitValue(18)), LvPhy0Is(2)), LvPhy0Nd(6)) == 0x44_8006
    ensures Or(Or(BitValue(18), LvPhy0Is(2)), LvPhy0Nd(6)) == 0x04_8006
  {
    Pow2Table();
    FldValIs(1, 22, 22, 0x40_0000);
    FldValIs(2, 15, 14, 0x8000);
    FldValIs(6, 4, 0, 6);
    FieldAt(0x40_0000, 18, 1, 0, 0, 8);
    OrSetBit(0x40_0000, 18);
    OrHighLow(0x44_0000, 0x8000, 16);
    OrHighLow(0x44_8000, 6, 8);
    OrHighLow(0x4_0000, 0x8000, 16);
    OrHighLow(0x4_8000, 6, 8);
  }

  // ---------------------------------------------------------------------
  // The init program

  datatype RegWrite = RegWrite(addr: u16, val: u32)

  /** The 22 register writes of the init step, in order, with their values
   *  written out as numbers. */
  const INIT_PROGRAM: seq<RegWrite> := [
    RegWrite(PPI_TX_RX_TA, 0x2_0003),
    RegWrite(PPI_LPTXTIMECNT, 2),
    RegWrite(PPI_D0S_CLRSIPOCOUNT, 5),
    RegWrite(PPI_D1S_CLRSIPOCOUNT, 5),
    RegWrite(PPI_D2S_CLRSIPOCOUNT, 5),
    RegWrite(PPI_D3S_CLRSIPOCOUNT, 5),
    RegWrite(PPI_LANEENABLE, 0x1F),
    RegWrite(DSI_LANEENABLE, 0x1F),
    RegWrite(PPI_STARTPPI, 1),
    RegWrite(DSI_STARTDSI, 1),
    RegWrite(VP_CTRL, 0x00FA_0120),
    RegWrite(LV_PHY0, 0x44_8006),
    RegWrite(LV_PHY0, 0x04_8006),
    RegWrite(SYS_RST, 0x4),
    RegWrite(LV_MX0003, 0x0302_0100),
    RegWrite(LV_MX0407, 0x0805_0704),
    RegWrite(LV_MX0811, 0x0F0E_0A09),
    RegWrite(LV_MX1215, 0x100D_0C0B),
    RegWrite(LV_MX1619, 0x1211_1716),
    RegWrite(LV_MX2023, 0x1B15_1413),
    RegWrite(LV_MX2427, 0x061A_1918),
    RegWrite(LV_CFG, 0xD)
  ]

  /** Where each kind of write sits in the init program: the two PHY writes
   *  first, then the system reset, then all seven mux writes, and the LVDS
   *  configuration last. */
  lemma InitProgramOrder()
    ensures |INIT_PROGRAM| == 22
    ensures forall i :: 0 <= i < |INIT_PROGRAM| ==>
      (INIT_PROGRAM[i].addr == LV_PHY0 <==> i == 11 || i == 12)
    ensures forall i :: 0 <= i < |INIT_PROGRAM| ==> (INIT_PROGRAM[i].addr == SYS_RST <==> i == 13)
    ensures forall i :: 0 <= i < |INIT_PROGRAM| ==>
      (IsMuxRegister(INIT_PROGRAM[i].addr) <==> 14 <= i <= 20)
    ensures forall i :: 0 <= i < |INIT_PROGRAM| ==> (INIT_PROGRAM[i].addr == LV_CFG <==> i == 21)
  {
  }

  /** The two PHY words differ only in the PHY reset bit: set in the first,
   *  clear in the second. */
  lemma PhyResetPair()
    ensures Field(INIT_PROGRAM[11].val, 22, 22) == 1
    ensures Field(INIT_PROGRAM[12].val, 22, 22) == 0
    ensures INIT_PROGRAM[11].val == INIT_PROGRAM[12].val + Pow2(22)
  {
    Pow2Table();
    FieldAt(0x44_8006, 22, 1, 0x4_8006, 1, 0);
    FieldAt(0x04_8006, 22, 1, 0x4_8006, 0, 0);
  }

  /** The input numbers of the mux table in the order the driver lists them:
   *  register by register, slot by slot. */
  const LVDS_WIRING: seq<nat> := [
    LVI_R0, LVI_R1, LVI_R2, LVI_R3,
    LVI_R4, LVI_R7, LVI_R5, LVI_G0,
    LVI_G1, LVI_G2, LVI_G6, LVI_G7,
    LVI_G3, LVI_G4, LVI_G5, LVI_B0,
    LVI_B6, LVI_B7, LVI_B1, LVI_B2,
    LVI_B3, LVI_B4, LVI_B5, LVI_L0,
    LVI_HS, LVI_VS, LVI_DE, LVI_R6
  ]

  /** The four 5-bit slots of a mux word, lowest first. */
  function Slots(v: nat): seq<nat>
  {
    [Field(v, 4, 0), Field(v, 12, 8), Field(v, 20, 16), Field(v, 28, 24)]
  }

  /** The 28 slots of the seven mux writes of the init program, in
   *  register then slot order. */
  function MuxSlots(): seq<nat>
  {
    Slots(INIT_PROGRAM[14].val) + Slots(INIT_PROGRAM[15].val) + Slots(INIT_PROGRAM[16].val) +
    Slots(INIT_PROGRAM[17].val) + Slots(INIT_PROGRAM[18].val) + Slots(INIT_PROGRAM[19].val) +
    Slots(INIT_PROGRAM[20].val)
  }

  /** The numbers written to the mux registers. */
  lemma InitMuxWords()
    ensures INIT_PROGRAM[14].val == 0x0302_0100 && INIT_PROGRAM[15].val == 0x0805_0704
    ensures INIT_PROGRAM[16].val == 0x0F0E_0A09 && INIT_PROGRAM[17].val == 0x100D_0C0B
    ensures INIT_PROGRAM[18].val == 0x1211_1716 && INIT_PROGRAM[19].val == 0x1B15_1413
    ensures INIT_PROGRAM[20].val == 0x061A_1918
  {
  }

  /** The `LV_MX` packings of the driver's table, as numbers. */
  lemma MuxTableWords()
    ensures LvMx(LVI_R0, LVI_R1, LVI_R2, LVI_R3) == 0x0302_0100
    ensures LvMx(LVI_R4, LVI_R7, LVI_R5, LVI_G0) == 0x0805_0704
    ensures LvMx(LVI_G1, LVI_G2, LVI_G6, LVI_G7) == 0x0F0E_0A09
    ensures LvMx(LVI_G3, LVI_G4, LVI_G5, LVI_B0) == 0x100D_0C0B
    ensures LvMx(LVI_B6, LVI_B7, LVI_B1, LVI_B2) == 0x1211_1716
    ensures LvMx(LVI_B3, LVI_B4, LVI_B5, LVI_L0) == 0x1B15_1413
    ensures LvMx(LVI_HS, LVI_VS, LVI_DE, LVI_R6) == 0x061A_1918
  {
    RedGreenMuxWords();
    BlueControlMuxWords();
  }

  /** The first four packings: the red and green inputs, and blue 0. */
  lemma RedGreenMuxWords()
    ensures LvMx(LVI_R0, LVI_R1, LVI_R2, LVI_R3) == 0x0302_0100
    ensures LvMx(LVI_R4, LVI_R7, LVI_R5, LVI_G0) == 0x0805_0704
    ensures LvMx(LVI_G1, LVI_G2, LVI_G6, LVI_G7) == 0x0F0E_0A09
    ensures LvMx(LVI_G3, LVI_G4, LVI_G5, LVI_B0) == 0x100D_0C0B
  {
    LvMxIs(LVI_R0, LVI_R1, LVI_R2, LVI_R3, 0x0302_0100);
    LvMxIs(LVI_R4, LVI_R7, LVI_R5, LVI_G0, 0x0805_0704);
    LvMxIs(LVI_G1, LVI_G2, LVI_G6, LVI_G7, 0x0F0E_0A09);
    LvMxIs(LVI_G3, LVI_G4, LVI_G5, LVI_B0, 0x100D_0C0B);
  }

  /** The last three packings: the other blue inputs and the sync, enable
   *  and spare inputs. */
  lemma BlueControlMuxWords()
    ensures LvMx(LVI_B6, LVI_B7, LVI_B1, LVI_B2) == 0x1211_1716
    ensures LvMx(LVI_B3, LVI_B4, LVI_B5, LVI_L0) == 0x1B15_1413
    ensures LvMx(LVI_HS, LVI_VS, LVI_DE, LVI_R6) == 0x061A_1918
  {
    LvMxIs(LVI_B6, LVI_B7, LVI_B1, LVI_B2, 0x1211_1716);
    LvMxIs(LVI_B3, LVI_B4, LVI_B5, LVI_L0, 0x1B15_1413);
    LvMxIs(LVI_HS, LVI_VS, LVI_DE, LVI_R6, 0x061A_1918);
  }

  /** The mux words of the init program are the `LV_MX` packings of the
   *  driver's table. */
  lemma MuxWordsArePackings()
    ensures INIT_PROGRAM[14].val == LvMx(LVI_R0, LVI_R1, LVI_R2, LVI_R3)
    ensures INIT_PROGRAM[15].val == LvMx(LVI_R4, LVI_R7, LVI_R5, LVI_G0)
    ensures INIT_PROGRAM[16].val == LvMx(LVI_G1, LVI_G2, LVI_G6, LVI_G7)
    ensures INIT_PROGRAM[17].val == LvMx(LVI_G3, LVI_G4, LVI_G5, LVI_B0)
    ensures INIT_PROGRAM[18].val == LvMx(LVI_B6, LVI_B7, LVI_B1, LVI_B2)
    ensures INIT_PROGRAM[19].val == LvMx(LVI_B3, LVI_B4, LVI_B5, LVI_L0)
    ensures INIT_PROGRAM[20].val == LvMx(LVI_HS, LVI_VS, LVI_DE, LVI_R6)
  {
    InitMuxWords();
    MuxTableWords();
  }

  /** A word with four numbers below 32 in its byte lanes has them as its
   *  slots. */
  lemma SlotsOf(c0: nat, c1: nat, c2: nat, c3: nat, v: nat)
    requires c0 < 32 && c1 < 32 && c2 < 32 && c3 < 32
    requires v == c0 + 0x100 * c1 + 0x1_0000 * c2 + 0x100_0000 * c3
    ensures Slots(v) == [c0, c1, c2, c3]
  {
    Pow2Table();
    FieldAt(v, 0, 5, 0, c0, 8 * c1 + 0x800 * c2 + 0x8_0000 * c3);
    FieldAt(v, 8, 5, c0, c1, 8 * c2 + 0x800 * c3);
    FieldAt(v, 16, 5, c0 + 0x100 * c1, c2, 8 * c3);
    FieldAt(v, 24, 5, c0 + 0x100 * c1 + 0x1_0000 * c2, c3, 0);
  }

  /** The slots of the four red and green mux words. */
  lemma RedGreenSlots()
    ensures Slots(0x0302_0100) + Slots(0x0805_0704) + Slots(0x0F0E_0A09) + Slots(0x100D_0C0B)
         == LVDS_WIRING[..16]
  {
    SlotsOf(0, 1, 2, 3, 0x0302_0100);
    SlotsOf(4, 7, 5, 8, 0x0805_0704);
    SlotsOf(9, 10, 14, 15, 0x0F0E_0A09);
    SlotsOf(11, 12, 13, 16, 0x100D_0C0B);
  }

  /** The slots of the three blue and control mux words. */
  lemma BlueControlSlots()
    ensures Slots(0x1211_1716) + Slots(0x1B15_1413) + Slots(0x061A_1918) == LVDS_WIRING[16..]
  {
    SlotsOf(22, 23, 17, 18, 0x1211_1716);
    SlotsOf(19, 20, 21, 27, 0x1B15_1413);
    SlotsOf(24, 25, 26, 6, 0x061A_1918);
  }

  /** Decoding the mux words slot by slot gives back the wiring table. */
  lemma MuxSlotsAreWiring()
    ensures MuxSlots() == LVDS_WIRING
  {
    InitMuxWords();
    var rg := Slots(0x0302_0100) + Slots(0x0805_0704) + Slots(0x0F0E_0A09) + Slots(0x100D_0C0B);
    var bc := Slots(0x1211_1716) + Slots(0x1B15_1413) + Slots(0x061A_1918);
    assert MuxSlots() == rg + bc;
    RedGreenSlots();
    BlueControlSlots();
    assert LVDS_WIRING == LVDS_WIRING[..16] + LVDS_WIRING[16..];
  }

  /** The wiring table uses every one of the 28 inputs exactly once. */
  lemma WiringIsPermutation()
    ensures |LVDS_WIRING| == 28
    ensures forall n :: 0 <= n < 28 <==> n in LVDS_WIRING
    ensures forall i, j :: 0 <= i < j < |LVDS_WIRING| ==> LVDS_WIRING[i] != LVDS_WIRING[j]
  {
  }
}
