/** Register codec of the TC358764 driver: how a 16-bit register address
 *  and a 32-bit value travel in the DSI generic read and long-write
 *  commands, and how a read reply becomes a register value.
 */
module Codec {
  import opened Bits

  datatype Option<T> = None | Some(value: T)

  /** The `n` least significant bytes of `x`, lowest first: what
   *  `cpu_to_le16`/`cpu_to_le32` leave in memory on any CPU. */
  function LeBytes(x: nat, n: nat): (b: seq<u8>)
    ensures |b| == n
  {
    if n == 0 then [] else [x % 256] + LeBytes(x / 256, n - 1)
  }

  /** The number a little-endian byte string stands for (`le32_to_cpu`). */
  function LeValue(b: seq<u8>): (x: nat)
    ensures x < Pow2(8 * |b|)
  {
    if b == [] then 0
    else
      var rest := LeValue(b[1..]);
      Pow2Add(8, 8 * (|b| - 1));
      Pow2Byte();
      ByteAppendBelow(b[0], rest, Pow2(8 * (|b| - 1)));
      b[0] + 256 * rest
  }

  lemma Pow2Byte()
    ensures Pow2(8) == 256
  {
    Pow2Table();
  }

  lemma ByteAppendBelow(b0: u8, rest: nat, p: nat)
    requires rest < p
    ensures b0 + 256 * rest < 256 * p
  {
  }

  /** Decoding the little-endian bytes of a value that fits gives it back. */
  lemma {:induction false} LeValueOfBytes(x: nat, n: nat)
    requires x < Pow2(8 * n)
    ensures LeValue(LeBytes(x, n)) == x
    decreases n
  {
    if n > 0 {
      Pow2Add(8, 8 * (n - 1));
      Pow2Byte();
      assert x / 256 < Pow2(8 * (n - 1));
      LeValueOfBytes(x / 256, n - 1);
      assert LeBytes(x, n)[1..] == LeBytes(x / 256, n - 1);
    }
  }

  /** Encoding the value of a byte string gives the bytes back. */
  lemma {:induction false} LeBytesOfValue(b: seq<u8>)
    ensures LeBytes(LeValue(b), |b|) == b
    decreases |b|
  {
    if b != [] {
      LeBytesOfValue(b[1..]);
      var x := LeValue(b);
      assert x % 256 == b[0] && x / 256 == LeValue(b[1..]) by {
        DivModUnique(x, 256, LeValue(b[1..]), b[0]);
      }
    }
  }

  /** Byte k of the little-endian form is bits 8k+7..8k. */
  lemma {:induction false} LeByteAt(x: nat, n: nat, k: nat)
    requires k < n
    ensures LeBytes(x, n)[k] == Field(x, 8 * k + 7, 8 * k)
    decreases k
  {
    Pow2Byte();
    if k > 0 {
      LeByteAt(x / 256, n - 1, k - 1);
      Pow2Add(8, 8 * (k - 1));
      DivDiv(x, 256, Pow2(8 * (k - 1)));
    }
  }

  // ---------------------------------------------------------------------
  // DSI messages

  /** The two processor-sourced data types the driver sends (section 8.8 of
   *  the MIPI DSI specification v1.1); here they are only tags. */
  datatype PacketType = GenericRead2Param | GenericLongWrite

  /** `MIPI_DSI_MSG_USE_LPM` and `MIPI_DSI_MSG_REQ_ACK`. */
  datatype MsgFlag = UseLpm | ReqAck

  /** A `struct mipi_dsi_msg` as handed to the host's transfer operation:
   *  the bytes to transmit and the number of bytes to receive. */
  datatype Msg = Msg(packet: PacketType, channel: nat, flags: set<MsgFlag>, tx: seq<u8>, rxLen: nat)

  /** What the host's transfer operation answers: its return value and the
   *  bytes it stored in the receive buffer. */
  datatype Reply = Reply(ret: int, rx: seq<u8>)

  /** The two bytes `tc358764_read` transmits: the register address after
   *  `cpu_to_le16`, as it lies in memory. */
  function AddrBytes(addr: u16): (b: seq<u8>)
  {
    [addr % 0x100, addr / 0x100]
  }

  /** The 6-byte buffer `tc358764_write` fills: each byte is the address or
   *  the value shifted right and cut to 8 bits by the `u8` store. */
  function WritePayload(addr: u16, val: u32): (b: seq<u8>)
  {
    [addr % 0x100, addr / 0x100 % 0x100,
     val % 0x100, val / 0x100 % 0x100, val / 0x1_0000 % 0x100, val / 0x100_0000 % 0x100]
  }

  /** The message `tc358764_read` sends for `addr`. */
  function ReadMsg(channel: nat, addr: u16): Msg
  {
    Msg(GenericRead2Param, channel, {UseLpm}, AddrBytes(addr), 4)
  }

  /** The message `tc358764_write` sends for `addr` and `val`. */
  function WriteMsg(channel: nat, addr: u16, val: u32): Msg
  {
    Msg(GenericLongWrite, channel, {UseLpm, ReqAck}, WritePayload(addr, val), 0)
  }

  /** A register access as the bridge sees it. */
  datatype Access = Read(addr: u16) | Write(addr: u16, val: u32)

  /** The register access a message carries, if it is one of the two
   *  register commands of the bridge. */
  function Decode(m: Msg): (r: Option<Access>)
  {
    Pow2Table();
    if m.packet == GenericRead2Param && |m.tx| == 2 && m.rxLen == 4 then
      Some(Read(LeValue(m.tx)))
    else if m.packet == GenericLongWrite && |m.tx| == 6 then
      Some(Write(LeValue(m.tx[..2]), LeValue(m.tx[2..])))
    else None
  }

  /** The address bytes are the little-endian form of the address. */
  lemma AddrBytesAreLittleEndian(addr: u16)
    ensures AddrBytes(addr) == LeBytes(addr, 2)
  {
    assert LeBytes(addr, 2) == [addr % 256] + LeBytes(addr / 256, 1);
    assert LeBytes(addr / 256, 1) == [(addr / 256) % 256] + LeBytes(addr / 256 / 256, 0);
  }

  /** The write buffer is the little-endian address followed by the
   *  little-endian value. */
  lemma WritePayloadIsLittleEndian(addr: u16, val: u32)
    ensures WritePayload(addr, val) == LeBytes(addr, 2) + LeBytes(val, 4)
  {
    AddrBytesAreLittleEndian(addr);
    DivDiv(val, 256, 256);
    DivDiv(val, 0x1_0000, 256);
    var v1, v2, v3 := val / 256, val / 256 / 256, val / 256 / 256 / 256;
    assert LeBytes(val, 4) == [val % 256] + LeBytes(v1, 3);
    assert LeBytes(v1, 3) == [v1 % 256] + LeBytes(v2, 2);
    assert LeBytes(v2, 2) == [v2 % 256] + LeBytes(v3, 1);
    assert LeBytes(v3, 1) == [v3 % 256] + LeBytes(v3 / 256, 0);
  }

  /** The write buffer is exactly 6 bytes: bits 7..0 and 15..8 of the
   *  address, then bits 7..0, 15..8, 23..16 and 31..24 of the value. */
  lemma WritePayloadLayout(addr: u16, val: u32)
    ensures |WritePayload(addr, val)| == 6
    ensures forall k :: 0 <= k < 2 ==> WritePayload(addr, val)[k] == Field(addr, 8 * k + 7, 8 * k)
    ensures forall k :: 0 <= k < 4 ==> WritePayload(addr, val)[2 + k] == Field(val, 8 * k + 7, 8 * k)
  {
    WritePayloadIsLittleEndian(addr, val);
    forall k | 0 <= k < 2
      ensures WritePayload(addr, val)[k] == Field(addr, 8 * k + 7, 8 * k)
    {
      LeByteAt(addr, 2, k);
    }
    forall k | 0 <= k < 4
      ensures WritePayload(addr, val)[2 + k] == Field(val, 8 * k + 7, 8 * k)
    {
      LeByteAt(val, 4, k);
    }
  }

  /** A read command decodes to a read of its address. */
  lemma ReadMsgDecodes(channel: nat, addr: u16)
    ensures Decode(ReadMsg(channel, addr)) == Some(Read(addr))
  {
    Pow2Table();
    AddrBytesAreLittleEndian(addr);
    LeValueOfBytes(addr, 2);
  }

  /** A write command decodes to a write of its address and value. */
  lemma WriteMsgDecodes(channel: nat, addr: u16, val: u32)
    ensures Decode(WriteMsg(channel, addr, val)) == Some(Write(addr, val))
  {
    Pow2Table();
    WritePayloadIsLittleEndian(addr, val);
    var b := WritePayload(addr, val);
    assert b[..2] == LeBytes(addr, 2) && b[2..] == LeBytes(val, 4);
    LeValueOfBytes(addr, 2);
    LeValueOfBytes(val, 4);
  }

  /** Conversely, the encoding is the only payload that decodes to a
   *  given write, and the only address bytes that decode to a given read. */
  lemma DecodeDeterminesPayload(m: Msg, a: Access)
    requires Decode(m) == Some(a)
    ensures a.Read? ==> m.packet == GenericRead2Param && m.tx == AddrBytes(a.addr)
    ensures a.Write? ==> m.packet == GenericLongWrite && m.tx == WritePayload(a.addr, a.val)
  {
    if a.Read? {
      LeBytesOfValue(m.tx);
      AddrBytesAreLittleEndian(a.addr);
    } else {
      LeBytesOfValue(m.tx[..2]);
      LeBytesOfValue(m.tx[2..]);
      WritePayloadIsLittleEndian(a.addr, a.val);
      assert m.tx == m.tx[..2] + m.tx[2..];
    }
  }

  // ---------------------------------------------------------------------
  // Read replies

  /** The bytes of the receive buffer after the host stored `rx` over the
   *  buffer `buf`: at most `|buf|` bytes are taken, the rest stay. */
  function Overlay(rx: seq<u8>, buf: seq<u8>): (r: seq<u8>)
    ensures |r| == |buf|
    ensures forall k :: 0 <= k < |buf| ==> r[k] == if k < |rx| then rx[k] else buf[k]
  {
    if |rx| >= |buf| then rx[..|buf|] else rx + buf[|rx|..]
  }

  /** The register value in the 4-byte receive buffer that held `prev` when
   *  the host stored the reply bytes `rx` into it. */
  function Received(rx: seq<u8>, prev: u32): (v: u32)
    ensures forall k :: 0 <= k < 4 ==>
      Field(v, 8 * k + 7, 8 * k) == if k < |rx| then rx[k] else Field(prev, 8 * k + 7, 8 * k)
    ensures |rx| >= 4 ==> v == LeValue(rx[..4])
  {
    var buf := Overlay(rx, LeBytes(prev, 4));
    var v := LeValue(buf);
    Pow2Table();
    LeBytesOfValue(buf);
    forall k | 0 <= k < 4
      ensures Field(v, 8 * k + 7, 8 * k) == if k < |rx| then rx[k] else Field(prev, 8 * k + 7, 8 * k)
    {
      LeByteAt(v, 4, k);
      LeByteAt(prev, 4, k);
    }
    v
  }
}
