/**
 * The channel assignment write of the LTC2983 driver (`setup_channel`) and the
 * configuration nibble of a thermocouple (`ThermocoupleParameters::sensor_configuration`).
 *
 * A write frame is the write opcode 0x02, the big-endian 16-bit address of the
 * channel's configuration register and a 32-bit channel assignment word, sent
 * most significant byte first. The driver builds it with the byte buffer;
 * `ConfigurationWrite` gives the frame in closed form, and `SetupChannel`, which
 * builds it the driver's way, is proved to produce exactly that frame.
 */
module ChannelSetup {
  import opened BitStream
  import opened Wrappers
  import opened Registers
  import opened ByteBuffers

  /** `LTC2983_WRITE`, the opcode of a register write. */
  const WriteOpcode: u8 := 0x02

  // ---------------------------------------------------------------------------
  // The thermocouple configuration nibble

  /** Bits 21..18 of a thermocouple's assignment word: the configuration bit, then the 3-bit current code. */
  function ConfigurationNibble(p: ThermocoupleParameters): (r: nat)
    ensures r < 16
  {
    8 * SensorConfigurationIdentifier(p.sensorConfiguration) + OcCurrentIdentifier(p.ocCurrent)
  }

  /** The nibble's high bit is the configuration bit and its low three bits the current code. */
  lemma {:induction false} NibbleFields(p: ThermocoupleParameters)
    ensures ConfigurationNibble(p) / 8 == SensorConfigurationIdentifier(p.sensorConfiguration)
    ensures ConfigurationNibble(p) % 8 == OcCurrentIdentifier(p.ocCurrent)
  {
    DivModUnique(ConfigurationNibble(p), 8,
      SensorConfigurationIdentifier(p.sensorConfiguration), OcCurrentIdentifier(p.ocCurrent));
  }

  /** The parameters' configuration and current back from a nibble; None when the current code is unused. */
  function NibbleParameters(nibble: nat): (r: Option<(SensorConfiguration, OcCurrent)>)
    requires nibble < 16
    ensures r.Some? <==> OcCurrentFromIdentifier(nibble % 8).Some?
  {
    match OcCurrentFromIdentifier(nibble % 8)
    case None => None
    case Some(oc) => Some((if nibble / 8 == 1 then SingleEnded else Differential, oc))
  }

  /** The nibble keeps both settings: decoding it gives them back. */
  lemma NibbleRoundTrip(p: ThermocoupleParameters)
    ensures NibbleParameters(ConfigurationNibble(p)) == Some((p.sensorConfiguration, p.ocCurrent))
  {
    NibbleFields(p);
    OcCurrentRoundTrip(p.ocCurrent);
  }

  /** Four zero bits, the configuration bit and the three current bits make the byte 8 sc + oc. */
  lemma {:induction false} NibbleBits(sc: nat, oc: nat)
    requires sc < 2 && oc < 8
    ensures Pack(BitsOf(0, 4) + BitsOf(sc, 1) + BitsOf(oc, 3)) == [8 * sc + oc]
  {
    assert Pow2(1) == 2 && Pow2(3) == 8;
    BitsOfJoin(0, 4, sc, 1, 2);
    assert 0 * 2 + sc == sc;
    BitsOfJoin(sc, 5, oc, 3, 8);
    assert sc * 8 + oc == 8 * sc + oc;
    PackByte(8 * sc + oc);
  }

  /**
   * `ThermocoupleParameters::sensor_configuration`: writes 0 in four bits, the
   * configuration bit and the current code in three bits to a fresh buffer, and
   * reads the first byte back. That byte always exists, so the driver's unwrap
   * never panics.
   */
  method SensorConfigurationCode(p: ThermocoupleParameters) returns (r: u64)
    ensures r == ConfigurationNibble(p)
    ensures r < 16
  {
    var sc := SensorConfigurationIdentifier(p.sensorConfiguration);
    var oc := OcCurrentIdentifier(p.ocCurrent);
    ghost var nibble := ConfigurationNibble(p);
    var buf := new ByteBuffer();
    ghost var start := buf.bits;
    buf.WriteBits(0, 4);
    buf.WriteBits(sc, 1);
    buf.WriteBits(oc, 3);
    assert buf.bits == start + BitsOf(0, 4) + BitsOf(sc, 1) + BitsOf(oc, 3);
    assert start + BitsOf(0, 4) == BitsOf(0, 4);
    NibbleBits(sc, oc);
    assert buf.AsBytes() == [nibble];
    var b := buf.ReadU8();
    r := b.value;
  }

  // ---------------------------------------------------------------------------
  // The channel assignment words

  /** Bits 26..22 of a thermocouple's word: the cold-junction channel's ordinal, or 0 for none. */
  function ColdJunctionCode(p: ThermocoupleParameters): (r: nat)
    ensures r < 32
    ensures r == 0 <==> p.coldJunctionChannel.None?
    ensures ChannelFromIdentifier(r) == p.coldJunctionChannel
  {
    match p.coldJunctionChannel
    case None => 0
    case Some(c) => ChannelRoundTrip(c); ChannelIdentifier(c)
  }

  /** The custom thermocouple data pointer, 0 for none. */
  function CustomAddressCode(p: ThermocoupleParameters): (r: u16)
    ensures p.customAddress.None? ==> r == 0
    ensures p.customAddress.Some? ==> p.customAddress == Some(r)
  {
    match p.customAddress
    case None => 0
    case Some(a) => a
  }

  /**
   * The assignment word of a thermocouple with type code id: the type in bits
   * 31..27, the cold-junction ordinal in 26..22, the configuration nibble in
   * 21..18, zeros in 17..12 and the low 12 bits of the custom pointer in 11..0.
   */
  function ThermocoupleWord(id: nat, p: ThermocoupleParameters): (w: nat)
    requires id < 32
    ensures w < 0x1_0000_0000
  {
    id * 0x800_0000 + ColdJunctionCode(p) * 0x40_0000 + ConfigurationNibble(p) * 0x4_0000
      + CustomAddressCode(p) % 0x1000
  }

  /** The assignment word of a sense resistor: type code 29 in bits 31..27, the low 27 bits of the raw resistance below. */
  function SenseResistorWord(raw: u32): (w: nat)
    ensures w < 0x1_0000_0000
  {
    29 * 0x800_0000 + raw % 0x800_0000
  }

  lemma Powers()
    ensures Pow2(0) == 1 && Pow2(1) == 2 && Pow2(3) == 8 && Pow2(4) == 16 && Pow2(5) == 32
    ensures Pow2(6) == 64 && Pow2(12) == 0x1000 && Pow2(14) == 0x4000
    ensures Pow2(18) == 0x4_0000 && Pow2(20) == 0x10_0000 && Pow2(22) == 0x40_0000
    ensures Pow2(27) == 0x800_0000 && Pow2(32) == 0x1_0000_0000
  {
  }

  /** A field of width n at bit lo of hi * 2^(lo+n) + mid * 2^lo + low is mid, when mid and low fit. */
  lemma {:induction false} FieldOf(hi: nat, mid: nat, low: nat, lo: nat, n: nat)
    requires mid < Pow2(n) && low < Pow2(lo)
    ensures Field(hi * Pow2(lo + n) + mid * Pow2(lo) + low, lo, n) == mid
  {
    var P, Q := Pow2(lo), Pow2(n);
    var w := hi * Pow2(lo + n) + mid * P + low;
    Pow2Add(lo, n);
    assert hi * (P * Q) == (hi * Q) * P;
    assert w == (hi * Q + mid) * P + low;
    DivModUnique(w, P, hi * Q + mid, low);
    DivModUnique(hi * Q + mid, Q, hi, mid);
  }

  /** Each field of a thermocouple word holds what was written to it; bits 17..12 are always zero. */
  lemma ThermocoupleFields(id: nat, p: ThermocoupleParameters)
    requires id < 32
    ensures Field(ThermocoupleWord(id, p), 27, 5) == id
    ensures Field(ThermocoupleWord(id, p), 22, 5) == ColdJunctionCode(p)
    ensures Field(ThermocoupleWord(id, p), 18, 4) == ConfigurationNibble(p)
    ensures Field(ThermocoupleWord(id, p), 12, 6) == 0
    ensures Field(ThermocoupleWord(id, p), 0, 12) == CustomAddressCode(p) % 0x1000
  {
    var w := ThermocoupleWord(id, p);
    var cj, cfg, ca := ColdJunctionCode(p), ConfigurationNibble(p), CustomAddressCode(p) % 0x1000;
    Powers();
    assert w == 0 * Pow2(32) + id * Pow2(27) + (cj * 0x40_0000 + cfg * 0x4_0000 + ca);
    FieldOf(0, id, cj * 0x40_0000 + cfg * 0x4_0000 + ca, 27, 5);
    assert w == id * Pow2(27) + cj * Pow2(22) + (cfg * 0x4_0000 + ca);
    FieldOf(id, cj, cfg * 0x4_0000 + ca, 22, 5);
    assert w == (id * 32 + cj) * Pow2(22) + cfg * Pow2(18) + ca;
    FieldOf(id * 32 + cj, cfg, ca, 18, 4);
    assert w == ((id * 32 + cj) * 16 + cfg) * Pow2(18) + 0 * Pow2(12) + ca;
    FieldOf((id * 32 + cj) * 16 + cfg, 0, ca, 12, 6);
    assert w == (((id * 32 + cj) * 16 + cfg) * 64) * Pow2(12) + ca * Pow2(0) + 0;
    FieldOf(((id * 32 + cj) * 16 + cfg) * 64, ca, 0, 0, 12);
  }

  /** A thermocouple with neither a cold junction nor a custom pointer leaves bits 26..22 and 11..0 zero. */
  lemma PlainThermocouple(id: nat, p: ThermocoupleParameters)
    requires id < 32 && p.coldJunctionChannel.None? && p.customAddress.None?
    ensures Field(ThermocoupleWord(id, p), 22, 5) == 0
    ensures Field(ThermocoupleWord(id, p), 0, 12) == 0
  {
    ThermocoupleFields(id, p);
  }

  /** A custom pointer wider than 12 bits is cut to its low 12 bits: pointers equal modulo 4096 give the same word. */
  lemma CustomAddressTruncated(id: nat, p: ThermocoupleParameters, a: u16)
    requires id < 32 && p.customAddress == Some(a)
    ensures ThermocoupleWord(id, p) == ThermocoupleWord(id, p.(customAddress := Some(a % 0x1000)))
    ensures Field(ThermocoupleWord(id, p), 0, 12) == a % 0x1000
  {
    ThermocoupleFields(id, p);
    var q := p.(customAddress := Some(a % 0x1000));
    DivModUnique(a % 0x1000, 0x1000, 0, a % 0x1000);
    assert CustomAddressCode(q) % 0x1000 == CustomAddressCode(p) % 0x1000;
  }

  /** The two fields of a sense resistor word. */
  lemma SenseResistorFields(raw: u32)
    ensures Field(SenseResistorWord(raw), 27, 5) == 29
    ensures Field(SenseResistorWord(raw), 0, 27) == raw % 0x800_0000
  {
    Powers();
    var low := raw % 0x800_0000;
    assert SenseResistorWord(raw) == 0 * Pow2(32) + 29 * Pow2(27) + low;
    FieldOf(0, 29, low, 27, 5);
    assert SenseResistorWord(raw) == 29 * Pow2(27) + low * Pow2(0) + 0;
    FieldOf(29, low, 0, 0, 27);
  }

  // ---------------------------------------------------------------------------
  // Decoding a thermocouple word

  /**
   * The thermocouple parameters a word encodes; None when its cold-junction
   * field names no channel or its current code is unused. A pointer field of 0
   * reads as "no custom pointer".
   */
  function DecodeThermocouple(w: nat): Option<ThermocoupleParameters>
  {
    var cj := Field(w, 22, 5);
    var nibble := Field(w, 18, 4);
    var ca := Field(w, 0, 12);
    assert nibble < 16 && ca < 0x1000 by { Powers(); }
    if cj != 0 && ChannelFromIdentifier(cj).None? then None
    else match NibbleParameters(nibble)
      case None => None
      case Some(settings) =>
        Some(ThermocoupleParameters(
          ChannelFromIdentifier(cj), settings.0, settings.1, if ca == 0 then None else Some(ca)))
  }

  /** A custom pointer below 0x1000 and other than 0 reads back from its 12-bit field. */
  lemma CustomAddressBack(p: ThermocoupleParameters)
    requires p.customAddress != Some(0)
    requires p.customAddress.Some? ==> p.customAddress.value < 0x1000
    ensures (if CustomAddressCode(p) % 0x1000 == 0 then None else Some(CustomAddressCode(p) % 0x1000)) == p.customAddress
  {
    if p.customAddress.Some? {
      DivModUnique(p.customAddress.value, 0x1000, 0, p.customAddress.value);
    }
  }

  /** A word whose fields hold the codes of p decodes to p. */
  lemma DecodeFields(w: nat, p: ThermocoupleParameters)
    requires p.customAddress != Some(0)
    requires p.customAddress.Some? ==> p.customAddress.value < 0x1000
    requires Field(w, 22, 5) == ColdJunctionCode(p)
    requires Field(w, 18, 4) == ConfigurationNibble(p)
    requires Field(w, 0, 12) == CustomAddressCode(p) % 0x1000
    ensures DecodeThermocouple(w) == Some(p)
  {
    NibbleRoundTrip(p);
    CustomAddressBack(p);
  }

  /**
   * A thermocouple word gives its parameters back, unless the custom pointer is
   * 0 (it then reads as none) or wider than 12 bits (it is truncated), and its
   * type field gives the probe variant back.
   */
  lemma ThermocoupleRoundTrip(probe: ThermalProbeType)
    requires IsThermocouple(probe)
    requires probe.params.customAddress != Some(0)
    requires probe.params.customAddress.Some? ==> probe.params.customAddress.value < 0x1000
    ensures DecodeThermocouple(ThermocoupleWord(ProbeIdentifier(probe), probe.params)) == Some(probe.params)
    ensures ProbeFromIdentifier(Field(ThermocoupleWord(ProbeIdentifier(probe), probe.params), 27, 5))
      == Some(Shape(probe))
  {
    var id := ProbeIdentifier(probe);
    ThermocoupleFields(id, probe.params);
    DecodeFields(ThermocoupleWord(id, probe.params), probe.params);
    ProbeRoundTrip(probe);
  }

  // ---------------------------------------------------------------------------
  // The write frame

  /** The bytes handed to the bus: the write opcode, the register address and the word, big-endian. */
  function Frame(address: u16, word: nat): (r: seq<u8>)
    ensures |r| == 7 && r[0] == WriteOpcode
    ensures r[1..3] == BigEndian(address, 2) && r[3..] == BigEndian(word, 4)
  {
    [WriteOpcode] + BigEndian(address, 2) + BigEndian(word, 4)
  }

  /** A frame is seven bytes, and its address and word read back from bytes 1..2 and 3..6. */
  lemma FrameLayout(address: u16, word: nat)
    requires word < 0x1_0000_0000
    ensures |Frame(address, word)| == 7 && Frame(address, word)[0] == WriteOpcode
    ensures BigEndianValue(Frame(address, word)[1..3]) == address
    ensures BigEndianValue(Frame(address, word)[3..7]) == word
  {
    var f := Frame(address, word);
    assert f[1..3] == BigEndian(address, 2);
    assert f[3..7] == BigEndian(word, 4);
    Powers();
    assert Pow2(16) == 0x1_0000;
    BigEndianRoundTrip(address, 2);
    BigEndianRoundTrip(word, 4);
  }

  /** The result of `setup_channel`: the frame written to the bus, or a probe type the driver does not support. */
  datatype SetupOutcome = Written(frame: seq<u8>) | Unsupported

  /**
   * The frame `setup_channel` writes for probe on channel. Thermocouples and
   * sense resistors are written to the channel's configuration register; RTDs
   * and thermistors are `unimplemented!()` in the driver.
   */
  function ConfigurationWrite(probe: ThermalProbeType, channel: Channel): (r: SetupOutcome)
    ensures r.Written? <==> IsThermocouple(probe) || probe.SenseResistor?
    ensures r.Written? ==>
      |r.frame| == 7 && r.frame[0] == WriteOpcode &&
      BigEndianValue(r.frame[1..3]) == StartAddress(channel) &&
      Field(BigEndianValue(r.frame[3..7]), 27, 5) == ProbeIdentifier(probe)
  {
    if IsThermocouple(probe) then
      var w := ThermocoupleWord(ProbeIdentifier(probe), probe.params);
      FrameLayout(StartAddress(channel), w);
      ThermocoupleFields(ProbeIdentifier(probe), probe.params);
      Written(Frame(StartAddress(channel), w))
    else if probe.SenseResistor? then
      var w := SenseResistorWord(probe.raw);
      FrameLayout(StartAddress(channel), w);
      SenseResistorFields(probe.raw);
      Written(Frame(StartAddress(channel), w))
    else
      Unsupported
  }

  /** The opcode and the address, as bits. */
  function HeaderBits(address: u16): seq<bool>
  {
    BitsOf(WriteOpcode, 8) + BitsOf(address, 16)
  }

  /** Header bits followed by the 32 bits of a word pack into the frame. */
  lemma {:induction false} FrameBits(address: u16, word: nat)
    ensures Pack(HeaderBits(address) + BitsOf(word, 32)) == Frame(address, word)
  {
    PackAppend(BitsOf(WriteOpcode, 8), BitsOf(address, 16));
    PackAppend(HeaderBits(address), BitsOf(word, 32));
    PackByte(WriteOpcode);
    PackU16(address);
    PackBitsOf(word, 4);
    PackBitsOf(address, 2);
  }

  /** Five fields of widths 5, 5, 4, 6 and 12 written after any prefix h are the 32 bits of the word w that holds them. */
  lemma {:induction false} FieldsBits(h: seq<bool>, id: nat, cj: nat, cfg: nat, ca: nat, w: nat)
    requires id < 32 && cj < 32 && cfg < 16
    requires w == id * 0x800_0000 + cj * 0x40_0000 + cfg * 0x4_0000 + ca % 0x1000
    ensures h + BitsOf(id, 5) + BitsOf(cj, 5) + BitsOf(cfg, 4) + BitsOf(0, 6) + BitsOf(ca, 12) == h + BitsOf(w, 32)
  {
    assert Pow2(4) == 16 && Pow2(5) == 32 && Pow2(6) == 64 && Pow2(12) == 0x1000;
    var w10: nat := id * 32 + cj;
    var w14: nat := w10 * 16 + cfg;
    var w20: nat := w14 * 64;
    var low: nat := ca % 0x1000;
    BitsOfExtend(h, id, 5, cj, 5, 32, w10, 10);
    BitsOfExtend(h, w10, 10, cfg, 4, 16, w14, 14);
    BitsOfExtend(h, w14, 14, 0, 6, 64, w20, 20);
    BitsOfTruncates(ca, 12);
    assert BitsOf(ca, 12) == BitsOf(low, 12);
    BitsOfExtend(h, w20, 20, low, 12, 0x1000, w, 32);
  }

  /** The five fields of a thermocouple, written in order after any prefix h, are the 32 bits of its word. */
  lemma ThermocoupleBits(h: seq<bool>, id: nat, p: ThermocoupleParameters)
    requires id < 32
    ensures h + BitsOf(id, 5) + BitsOf(ColdJunctionCode(p), 5) + BitsOf(ConfigurationNibble(p), 4)
      + BitsOf(0, 6) + BitsOf(CustomAddressCode(p), 12) == h + BitsOf(ThermocoupleWord(id, p), 32)
  {
    FieldsBits(h, id, ColdJunctionCode(p), ConfigurationNibble(p), CustomAddressCode(p), ThermocoupleWord(id, p));
  }

  /** A type code in five bits and a raw value in 27 bits, after any prefix h, are the 32 bits of the word holding both. */
  lemma {:induction false} TypedValueBits(h: seq<bool>, id: nat, raw: u32)
    requires id < 32
    ensures h + BitsOf(id, 5) + BitsOf(raw, 27) == h + BitsOf(id * 0x800_0000 + raw % 0x800_0000, 32)
  {
    Powers();
    var low: nat := raw % 0x800_0000;
    BitsOfTruncates(raw, 27);
    assert BitsOf(raw, 27) == BitsOf(low, 27);
    BitsOfExtend(h, id, 5, low, 27, 0x800_0000, id * 0x800_0000 + low, 32);
  }

  /**
   * The thermocouple branch of `setup_channel`: the opcode and the address as
   * whole bytes, then type, cold junction, configuration nibble, six zero bits
   * and the custom pointer with `write_bits`, in a fresh buffer.
   */
  method ThermocoupleFrame(probe: ThermalProbeType, channel: Channel) returns (frame: seq<u8>)
    requires IsThermocouple(probe)
    ensures frame == Frame(StartAddress(channel), ThermocoupleWord(ProbeIdentifier(probe), probe.params))
  {
    var address := StartAddress(channel);
    var param := probe.params;
    var id := ProbeIdentifier(probe);
    var cj, ca := ColdJunctionCode(param), CustomAddressCode(param);
    var cfg := SensorConfigurationCode(param);
    var buf := new ByteBuffer();
    buf.WriteU8(WriteOpcode);
    buf.WriteU16(address);
    ghost var h := HeaderBits(address);
    assert buf.bits == h;
    buf.WriteBits(id, 5);
    buf.WriteBits(cj, 5);
    buf.WriteBits(cfg, 4);
    buf.WriteBits(0, 6);
    buf.WriteBits(ca, 12);
    assert buf.bits == h + BitsOf(id, 5) + BitsOf(cj, 5) + BitsOf(cfg, 4) + BitsOf(0, 6) + BitsOf(ca, 12);
    ThermocoupleBits(h, id, param);
    FrameBits(address, ThermocoupleWord(id, param));
    frame := buf.AsBytes();
  }

  /**
   * The sense resistor branch of `setup_channel`: the opcode and the address,
   * then the type code in five bits and the raw resistance in 27 bits.
   */
  method SenseResistorFrame(probe: ThermalProbeType, channel: Channel) returns (frame: seq<u8>)
    requires probe.SenseResistor?
    ensures frame == Frame(StartAddress(channel), SenseResistorWord(probe.raw))
  {
    var address := StartAddress(channel);
    var id := ProbeIdentifier(probe);
    ProbeClasses(probe);
    assert id == 29;
    var raw := probe.raw;
    var buf := new ByteBuffer();
    buf.WriteU8(WriteOpcode);
    buf.WriteU16(address);
    ghost var h := HeaderBits(address);
    assert buf.bits == h;
    buf.WriteBits(id, 5);
    buf.WriteBits(raw, 27);
    TypedValueBits(h, id, raw);
    assert buf.bits == h + BitsOf(id * 0x800_0000 + raw % 0x800_0000, 32);
    assert id * 0x800_0000 + raw % 0x800_0000 == SenseResistorWord(raw);
    FrameBits(address, SenseResistorWord(raw));
    frame := buf.AsBytes();
  }

  /**
   * `setup_channel` without the bus: the frame it would write for probe on
   * channel, built in a byte buffer as the driver does, or Unsupported where
   * the driver panics.
   */
  method SetupChannel(probe: ThermalProbeType, channel: Channel) returns (r: SetupOutcome)
    ensures r == ConfigurationWrite(probe, channel)
  {
    if IsThermocouple(probe) {
      var frame := ThermocoupleFrame(probe, channel);
      r := Written(frame);
    } else if probe.SenseResistor? {
      var frame := SenseResistorFrame(probe, channel);
      r := Written(frame);
    } else {
      r := Unsupported;
    }
  }
}
