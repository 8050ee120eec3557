/**
 * The status register of the LTC2983 driver: the four-byte read request that
 * `status` hands to the bus, and the decoding of the status byte that comes
 * back (`From<u8> for LTC2983Status`).
 *
 * The status byte holds the start flag in bit 7, the done flag in bit 6, an
 * unused bit 5 and the selected channel in bits 4..0.
 */
module Status {
  import opened BitStream
  import opened Wrappers
  import opened ByteBuffers

  /** `LTC2983_READ`, the opcode of a register read. */
  const ReadOpcode: u8 := 0x03

  /** `STATUS_REGISTER`, the address of the status register. */
  const StatusRegister: u16 := 0x000

  /** `LTC2983Status`: two flags and the channel field, a byte as in the driver. */
  datatype DeviceStatus = DeviceStatus(start: bool, done: bool, channelSelection: bv8)

  /** `LTC2983Status::from`: the flags of bits 7 and 6 and the channel of bits 4..0, by masking. */
  function StatusFromByte(data: bv8): (r: DeviceStatus)
    ensures r.start <==> data >= 0x80
    ensures r.done <==> data % 0x80 >= 0x40
    ensures r.channelSelection == data % 0x20 && r.channelSelection < 32
  {
    DeviceStatus(data & 0x80 == 0x80, data & 0x40 == 0x40, data & 0x1f)
  }

  /** The byte a status is read from, with the unused bit 5 clear. */
  function StatusByte(s: DeviceStatus): bv8
  {
    (if s.start then 0x80 else 0) | (if s.done then 0x40 else 0) | s.channelSelection
  }

  /** Bit 5 is unused: setting or clearing it decodes to the same status. */
  lemma UnusedBit(data: bv8)
    ensures StatusFromByte(data) == StatusFromByte(data ^ 0x20)
  {
  }

  /** Decoding keeps every field of a status whose channel fits in five bits. */
  lemma StatusRoundTrip(s: DeviceStatus)
    requires s.channelSelection < 32
    ensures StatusFromByte(StatusByte(s)) == s
  {
  }

  /** Decoding loses only bit 5: re-encoding a decoded byte clears that bit and keeps the others. */
  lemma StatusByteRoundTrip(data: bv8)
    ensures StatusByte(StatusFromByte(data)) == data & 0xdf
  {
  }

  /**
   * The bytes `status` hands to the bus: the read opcode, the big-endian status
   * register address and one dummy byte, written into a fresh buffer.
   */
  method StatusRequest() returns (r: seq<u8>)
    ensures r == [ReadOpcode, 0x00, 0x00, 0x00]
  {
    var buf := new ByteBuffer();
    assert buf.AsBytes() == [];
    buf.WriteU8(ReadOpcode);
    assert buf.AsBytes() == [ReadOpcode];
    buf.WriteU16(StatusRegister);
    assert buf.AsBytes() == [ReadOpcode, 0x00, 0x00];
    buf.WriteU8(0x0);
    r := buf.AsBytes();
  }

  /**
   * The result of `status` once the bus transfer has filled the four received
   * bytes: the status decoded from the fourth, or the bus error passed through.
   */
  function StatusResult<E>(transfer: Result<(), E>, recv: seq<u8>): (r: Result<DeviceStatus, E>)
    requires |recv| == 4
    ensures r.Ok? <==> transfer.Ok?
    ensures r.Ok? ==> r.value == StatusFromByte(recv[3] as bv8)
    ensures r.Err? ==> r.error == transfer.error
  {
    match transfer
    case Ok(_) => Ok(StatusFromByte(recv[3] as bv8))
    case Err(e) => Err(e)
  }
}
