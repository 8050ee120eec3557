/**
 * The wire-constant tables of the LTC2983 driver: the twenty measurement
 * channels with their configuration and result register addresses and their
 * ordinals, the probe types with their 5-bit type codes, the sensor
 * configuration bit and the open-circuit current codes.
 *
 * Each table is a plain `match`. Its partner is an inverse decoder or a
 * closed-form formula, and the lemmas below tie the two together.
 */
module Registers {
  import opened BitStream
  import opened Wrappers

  // ---------------------------------------------------------------------------
  // Channels

  /** `LTC2983Channel`: the twenty measurement channels. */
  datatype Channel =
    | CH1 | CH2 | CH3 | CH4 | CH5 | CH6 | CH7 | CH8 | CH9 | CH10
    | CH11 | CH12 | CH13 | CH14 | CH15 | CH16 | CH17 | CH18 | CH19 | CH20

  /** The channel's ordinal; it fills the 5-bit cold-junction field, where 0 means none. */
  function ChannelIdentifier(c: Channel): (r: nat)
    ensures 1 <= r <= 20
  {
    match c
    case CH1 => 1
    case CH2 => 2
    case CH3 => 3
    case CH4 => 4
    case CH5 => 5
    case CH6 => 6
    case CH7 => 7
    case CH8 => 8
    case CH9 => 9
    case CH10 => 10
    case CH11 => 11
    case CH12 => 12
    case CH13 => 13
    case CH14 => 14
    case CH15 => 15
    case CH16 => 16
    case CH17 => 17
    case CH18 => 18
    case CH19 => 19
    case CH20 => 20
  }

  /** The first word of the channel's configuration register: four bytes per channel from 0x200. */
  function StartAddress(c: Channel): (r: u16)
    ensures r == 0x200 + 4 * (ChannelIdentifier(c) - 1)
  {
    match c
    case CH1 => 0x200
    case CH2 => 0x204
    case CH3 => 0x208
    case CH4 => 0x20C
    case CH5 => 0x210
    case CH6 => 0x214
    case CH7 => 0x218
    case CH8 => 0x21C
    case CH9 => 0x220
    case CH10 => 0x224
    case CH11 => 0x228
    case CH12 => 0x22C
    case CH13 => 0x230
    case CH14 => 0x234
    case CH15 => 0x238
    case CH16 => 0x23C
    case CH17 => 0x240
    case CH18 => 0x244
    case CH19 => 0x248
    case CH20 => 0x24C
  }

  /** The first word of the channel's conversion result: four bytes per channel from 0x010. */
  function ResultAddress(c: Channel): (r: u16)
    ensures r == 0x010 + 4 * (ChannelIdentifier(c) - 1)
  {
    match c
    case CH1 => 0x010
    case CH2 => 0x014
    case CH3 => 0x018
    case CH4 => 0x01C
    case CH5 => 0x020
    case CH6 => 0x024
    case CH7 => 0x028
    case CH8 => 0x02C
    case CH9 => 0x030
    case CH10 => 0x034
    case CH11 => 0x038
    case CH12 => 0x03C
    case CH13 => 0x040
    case CH14 => 0x044
    case CH15 => 0x048
    case CH16 => 0x04C
    case CH17 => 0x050
    case CH18 => 0x054
    case CH19 => 0x058
    case CH20 => 0x05C
  }

  /** The channel with ordinal id; None for 0, the "no channel" code, and for ids past 20. */
  function ChannelFromIdentifier(id: int): (r: Option<Channel>)
    ensures r.Some? <==> 1 <= id <= 20
    ensures r.Some? ==> ChannelIdentifier(r.value) == id
  {
    match id
    case 1 => Some(CH1)
    case 2 => Some(CH2)
    case 3 => Some(CH3)
    case 4 => Some(CH4)
    case 5 => Some(CH5)
    case 6 => Some(CH6)
    case 7 => Some(CH7)
    case 8 => Some(CH8)
    case 9 => Some(CH9)
    case 10 => Some(CH10)
    case 11 => Some(CH11)
    case 12 => Some(CH12)
    case 13 => Some(CH13)
    case 14 => Some(CH14)
    case 15 => Some(CH15)
    case 16 => Some(CH16)
    case 17 => Some(CH17)
    case 18 => Some(CH18)
    case 19 => Some(CH19)
    case 20 => Some(CH20)
    case _ => None
  }

  /** Decoding an ordinal gives the channel back: the ordinals are one-to-one. */
  lemma ChannelRoundTrip(c: Channel)
    ensures ChannelFromIdentifier(ChannelIdentifier(c)) == Some(c)
  {
  }

  /** Two channels share an ordinal, a configuration address or a result address only if they are the same. */
  lemma ChannelTablesInjective(a: Channel, b: Channel)
    ensures ChannelIdentifier(a) == ChannelIdentifier(b) <==> a == b
    ensures StartAddress(a) == StartAddress(b) <==> a == b
    ensures ResultAddress(a) == ResultAddress(b) <==> a == b
  {
    ChannelRoundTrip(a);
    ChannelRoundTrip(b);
  }

  /** The configuration registers (0x200 .. 0x24F) and the result registers (0x010 .. 0x05F) do not overlap. */
  lemma AddressRanges(a: Channel, b: Channel)
    ensures 0x200 <= StartAddress(a) && StartAddress(a) + 4 <= 0x250 && StartAddress(a) % 4 == 0
    ensures 0x010 <= ResultAddress(a) && ResultAddress(a) + 4 <= 0x060 && ResultAddress(a) % 4 == 0
    ensures ResultAddress(b) + 4 <= StartAddress(a)
  {
  }

  // ---------------------------------------------------------------------------
  // Sensor configuration and open-circuit current

  /** `SensorConfiguration`: single-ended or differential input. */
  datatype SensorConfiguration = SingleEnded | Differential

  /** The sensor configuration bit: 1 for single-ended, 0 for differential. */
  function SensorConfigurationIdentifier(s: SensorConfiguration): (r: nat)
    ensures r < 2
    ensures r == 1 <==> s == SingleEnded
  {
    match s
    case SingleEnded => 1
    case Differential => 0
  }

  /** `LTC2983OcCurrent`: the open-circuit detection current. */
  datatype OcCurrent = External | I10uA | I100uA | I500uA | I1mA

  /** The 3-bit open-circuit current code: 0 for external, 4 .. 7 for 10 uA .. 1 mA. */
  function OcCurrentIdentifier(o: OcCurrent): (r: nat)
    ensures r < 8 && r != 1 && r != 2 && r != 3
    ensures r == 0 <==> o == External
  {
    match o
    case External => 0
    case I10uA => 4
    case I100uA => 5
    case I500uA => 6
    case I1mA => 7
  }

  /** The current with code k; None for the unused codes 1, 2 and 3 and for codes past 7. */
  function OcCurrentFromIdentifier(k: int): (r: Option<OcCurrent>)
    ensures r.Some? <==> k == 0 || 4 <= k <= 7
    ensures r.Some? ==> OcCurrentIdentifier(r.value) == k
  {
    if k == 0 then Some(External)
    else if k == 4 then Some(I10uA)
    else if k == 5 then Some(I100uA)
    else if k == 6 then Some(I500uA)
    else if k == 7 then Some(I1mA)
    else None
  }

  /** Decoding a current's code gives the current back: the codes are one-to-one. */
  lemma OcCurrentRoundTrip(o: OcCurrent)
    ensures OcCurrentFromIdentifier(OcCurrentIdentifier(o)) == Some(o)
  {
  }

  // ---------------------------------------------------------------------------
  // Probe types

  /** `ThermocoupleParameters`: how a thermocouple channel is wired. */
  datatype ThermocoupleParameters = ThermocoupleParameters(
    coldJunctionChannel: Option<Channel>,
    sensorConfiguration: SensorConfiguration,
    ocCurrent: OcCurrent,
    customAddress: Option<u16>)

  /**
   * `ThermalProbeType`. A sense resistor carries the raw bits of its fixed-point
   * resistance instead of the floating-point value the driver converts.
   */
  datatype ThermalProbeType =
    | ThermocoupleJ(params: ThermocoupleParameters)
    | ThermocoupleK(params: ThermocoupleParameters)
    | ThermocoupleE(params: ThermocoupleParameters)
    | ThermocoupleN(params: ThermocoupleParameters)
    | ThermocoupleR(params: ThermocoupleParameters)
    | ThermocoupleS(params: ThermocoupleParameters)
    | ThermocoupleT(params: ThermocoupleParameters)
    | ThermocoupleB(params: ThermocoupleParameters)
    | RtdPt10 | RtdPt50 | RtdPt100 | RtdPt200 | RtdPt500 | RtdPt1000 | Rtd1000 | RtdNi120
    | Thermistor44004_44033 | Thermistor44005_44030 | Thermistor44007_44034
    | Thermistor44006_44031 | Thermistor44008_44032 | ThermistorYsi400 | ThermistorSpectrum
    | SenseResistor(raw: u32)

  /** The thermocouple variants, which carry `ThermocoupleParameters`; no thermocouple is in another group. */
  predicate IsThermocouple(p: ThermalProbeType): (r: bool)
    ensures r ==> !IsRtd(p) && !IsThermistor(p) && !p.SenseResistor?
  {
    p.ThermocoupleJ? || p.ThermocoupleK? || p.ThermocoupleE? || p.ThermocoupleN? ||
    p.ThermocoupleR? || p.ThermocoupleS? || p.ThermocoupleT? || p.ThermocoupleB?
  }

  /** The RTD variants; no RTD is a thermistor or the sense resistor. */
  predicate IsRtd(p: ThermalProbeType): (r: bool)
    ensures r ==> !IsThermistor(p) && !p.SenseResistor?
  {
    p.RtdPt10? || p.RtdPt50? || p.RtdPt100? || p.RtdPt200? ||
    p.RtdPt500? || p.RtdPt1000? || p.Rtd1000? || p.RtdNi120?
  }

  /** The thermistor variants; no thermistor is the sense resistor. */
  predicate IsThermistor(p: ThermalProbeType): (r: bool)
    ensures r ==> !p.SenseResistor?
  {
    p.Thermistor44004_44033? || p.Thermistor44005_44030? || p.Thermistor44007_44034? ||
    p.Thermistor44006_44031? || p.Thermistor44008_44032? || p.ThermistorYsi400? ||
    p.ThermistorSpectrum?
  }

  /** The four groups cover every probe type: with the exclusions above they partition it. */
  lemma ProbeGroupsCover(p: ThermalProbeType)
    ensures IsThermocouple(p) || IsRtd(p) || IsThermistor(p) || p.SenseResistor?
  {
  }

  /** The 5-bit sensor type code of bits 31..27 of a channel assignment word. */
  function ProbeIdentifier(p: ThermalProbeType): (r: nat)
    ensures 1 <= r <= 29
  {
    match p
    case ThermocoupleJ(_) => 1
    case ThermocoupleK(_) => 2
    case ThermocoupleE(_) => 3
    case ThermocoupleN(_) => 4
    case ThermocoupleR(_) => 5
    case ThermocoupleS(_) => 6
    case ThermocoupleT(_) => 7
    case ThermocoupleB(_) => 8
    case RtdPt10 => 10
    case RtdPt50 => 11
    case RtdPt100 => 12
    case RtdPt200 => 13
    case RtdPt500 => 14
    case RtdPt1000 => 15
    case Rtd1000 => 16
    case RtdNi120 => 17
    case Thermistor44004_44033 => 19
    case Thermistor44005_44030 => 20
    case Thermistor44007_44034 => 21
    case Thermistor44006_44031 => 22
    case Thermistor44008_44032 => 23
    case ThermistorYsi400 => 24
    case ThermistorSpectrum => 25
    case SenseResistor(_) => 29
  }

  /** The code ranges 1..8, 10..17, 19..25 and 29 are the thermocouples, RTDs, thermistors and the sense resistor. */
  lemma ProbeClasses(p: ThermalProbeType)
    ensures IsThermocouple(p) <==> 1 <= ProbeIdentifier(p) <= 8
    ensures IsRtd(p) <==> 10 <= ProbeIdentifier(p) <= 17
    ensures IsThermistor(p) <==> 19 <= ProbeIdentifier(p) <= 25
    ensures p.SenseResistor? <==> ProbeIdentifier(p) == 29
  {
  }

  const NoParameters := ThermocoupleParameters(None, Differential, External, None)

  /** The probe with its parameters forgotten: two probes have the same shape when they are the same variant. */
  function Shape(p: ThermalProbeType): ThermalProbeType
  {
    match p
    case ThermocoupleJ(_) => ThermocoupleJ(NoParameters)
    case ThermocoupleK(_) => ThermocoupleK(NoParameters)
    case ThermocoupleE(_) => ThermocoupleE(NoParameters)
    case ThermocoupleN(_) => ThermocoupleN(NoParameters)
    case ThermocoupleR(_) => ThermocoupleR(NoParameters)
    case ThermocoupleS(_) => ThermocoupleS(NoParameters)
    case ThermocoupleT(_) => ThermocoupleT(NoParameters)
    case ThermocoupleB(_) => ThermocoupleB(NoParameters)
    case SenseResistor(_) => SenseResistor(0)
    case _ => p
  }

  /** The thermocouple of code k in 1..8, with no parameters. */
  function ThermocoupleFromIdentifier(k: int): (r: ThermalProbeType)
    requires 1 <= k <= 8
    ensures ProbeIdentifier(r) == k && Shape(r) == r
  {
    if k == 1 then ThermocoupleJ(NoParameters)
    else if k == 2 then ThermocoupleK(NoParameters)
    else if k == 3 then ThermocoupleE(NoParameters)
    else if k == 4 then ThermocoupleN(NoParameters)
    else if k == 5 then ThermocoupleR(NoParameters)
    else if k == 6 then ThermocoupleS(NoParameters)
    else if k == 7 then ThermocoupleT(NoParameters)
    else ThermocoupleB(NoParameters)
  }

  /** The RTD of code k in 10..17. */
  function RtdFromIdentifier(k: int): (r: ThermalProbeType)
    requires 10 <= k <= 17
    ensures ProbeIdentifier(r) == k && Shape(r) == r
  {
    if k == 10 then RtdPt10
    else if k == 11 then RtdPt50
    else if k == 12 then RtdPt100
    else if k == 13 then RtdPt200
    else if k == 14 then RtdPt500
    else if k == 15 then RtdPt1000
    else if k == 16 then Rtd1000
    else RtdNi120
  }

  /** The thermistor of code k in 19..25. */
  function ThermistorFromIdentifier(k: int): (r: ThermalProbeType)
    requires 19 <= k <= 25
    ensures ProbeIdentifier(r) == k && Shape(r) == r
  {
    if k == 19 then Thermistor44004_44033
    else if k == 20 then Thermistor44005_44030
    else if k == 21 then Thermistor44007_44034
    else if k == 22 then Thermistor44006_44031
    else if k == 23 then Thermistor44008_44032
    else if k == 24 then ThermistorYsi400
    else ThermistorSpectrum
  }

  /** The probe variant of type code id, with no parameters; None for the unassigned codes. */
  function ProbeFromIdentifier(id: int): (r: Option<ThermalProbeType>)
    ensures r.Some? <==> 1 <= id <= 8 || 10 <= id <= 17 || 19 <= id <= 25 || id == 29
    ensures r.Some? ==> ProbeIdentifier(r.value) == id && Shape(r.value) == r.value
  {
    if 1 <= id <= 8 then Some(ThermocoupleFromIdentifier(id))
    else if 10 <= id <= 17 then Some(RtdFromIdentifier(id))
    else if 19 <= id <= 25 then Some(ThermistorFromIdentifier(id))
    else if id == 29 then Some(SenseResistor(0))
    else None
  }

  /** The type code names the probe variant: decoding it gives the probe's shape back. */
  lemma ProbeRoundTrip(p: ThermalProbeType)
    ensures ProbeFromIdentifier(ProbeIdentifier(p)) == Some(Shape(p))
  {
  }

  /** Two probes have the same type code exactly when they are the same variant. */
  lemma ProbeIdentifierInjective(a: ThermalProbeType, b: ThermalProbeType)
    ensures ProbeIdentifier(a) == ProbeIdentifier(b) <==> Shape(a) == Shape(b)
  {
    ProbeRoundTrip(a);
    ProbeRoundTrip(b);
  }
}
