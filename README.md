# LTC2983 register encoding, modelled in Dafny

This project models the register-encoding layer of a Rust driver for the
LTC2983 multi-sensor temperature chip (`src/lib.rs`), and proves properties of
that model. The layer has four parts:

- the wire-constant tables: channel ordinals and register addresses, probe type
  codes, the sensor-configuration bit and the open-circuit current code;
- the channel assignment write of `setup_channel`. This is a 7-byte frame: the
  write opcode, the big-endian configuration-register address, and a 32-bit
  channel assignment word whose fields are appended most significant bit first
  with `write_bits`;
- the configuration nibble of a thermocouple (`sensor_configuration`), which
  is also built in a byte buffer;
- the status register: the read request `status` sends, and the decoding of
  the status byte (`From<u8> for LTC2983Status`).

The driver builds its frames in a `ByteBuffer` from the external `bytebuffer`
crate. The crate is not part of this model's source. It is modelled from its
documented behaviour as the class `ByteBuffers.ByteBuffer`:

- `write_bits` appends bits most significant first;
- `write_u8` and `write_u16` first complete a partly written byte with zero
  bits, then append whole bytes, big-endian;
- `read_u8` returns the next byte, or an error when none is left;
- `as_bytes` shows a partly written last byte padded with zero bits.

Each method of the class is specified against the pure bit-stream functions of
`BitStream`, that is `Pack`, `BitsOf` and `Zeros`; `WriteU16` appends the two
bytes `[v / 256, v % 256]`. The driver's imperative procedures
`SensorConfigurationCode`, `ThermocoupleFrame`, `SenseResistorFrame` and
`StatusRequest` fill a fresh buffer step by step, as the driver does. Each is
proved to produce a closed-form byte sequence, whose field layout is then
proved by lemmas. `SetupChannel` dispatches on the probe type to
`ThermocoupleFrame` or `SenseResistorFrame`.

Files, one module each:

| file | module | contents |
|---|---|---|
| wrappers.dfy | `Wrappers` | `Option`, `Result` |
| bit_stream.dfy | `BitStream` | fixed-width integer types; bits of a number, bytes of a bit stream, big-endian bytes, bit fields |
| byte_buffer.dfy | `ByteBuffers` | the byte buffer class |
| registers.dfy | `Registers` | channels, sensor configuration, open-circuit current, probe types, and their code tables |
| channel_setup.dfy | `ChannelSetup` | configuration nibble, channel assignment words, write frames, `setup_channel` |
| status.dfy | `Status` | status request and status byte decoding |

## Model

| member | source | states |
|---|---|---|
| Registers.ChannelIdentifier | src/lib.rs:212-235 | a channel's ordinal lies in 1..20, so 0 never names a channel and every ordinal fits five bits |
| Registers.StartAddress | src/lib.rs:162-185 | the configuration register of channel n is at 0x200 + 4 (n - 1) |
| Registers.ResultAddress | src/lib.rs:187-210 | the result register of channel n is at 0x010 + 4 (n - 1) |
| Registers.ChannelFromIdentifier | src/lib.rs:212-235 | the inverse of the ordinal table: defined exactly for 1..20, and it gives the channel with that ordinal |
| Registers.ChannelRoundTrip | src/lib.rs:212-235 | decoding a channel's ordinal gives the channel back |
| Registers.ChannelTablesInjective | src/lib.rs:162-235 | two channels have the same ordinal, the same configuration address or the same result address exactly when they are the same channel |
| Registers.AddressRanges | src/lib.rs:162-210 | configuration registers lie word-aligned in 0x200..0x24F and result registers in 0x010..0x05F, so no result register overlaps a configuration register |
| Registers.SensorConfigurationIdentifier | src/lib.rs:34-41 | the configuration bit is below 2, and it is 1 exactly for single-ended |
| Registers.OcCurrentIdentifier | src/lib.rs:265-275 | the current code is below 8, never 1, 2 or 3, and 0 exactly for the external current |
| Registers.OcCurrentFromIdentifier | src/lib.rs:265-275 | the inverse of the current table: defined exactly for 0 and 4..7, and it gives the current with that code |
| Registers.OcCurrentRoundTrip | src/lib.rs:265-275 | decoding a current's code gives the current back |
| Registers.IsThermocouple | src/lib.rs:307-314 | the eight thermocouple variants of the driver's first or-pattern; no thermocouple is an RTD, a thermistor or the sense resistor |
| Registers.IsRtd | src/lib.rs:332-339 | the eight RTD variants of the driver's second or-pattern; no RTD is a thermistor or the sense resistor |
| Registers.IsThermistor | src/lib.rs:342-348 | the seven thermistor variants of the driver's third or-pattern; no thermistor is the sense resistor |
| Registers.ProbeGroupsCover | src/lib.rs:306-364 | every probe type falls in one of the four groups `setup_channel` matches on, so with the exclusions above the groups partition the probe types |
| Registers.ProbeIdentifier | src/lib.rs:94-123 | every probe type code lies in 1..29, so it fits the 5-bit type field |
| Registers.ProbeClasses | src/lib.rs:97-120 | the thermocouples have codes 1..8, the RTDs 10..17, the thermistors 19..25 and the sense resistor 29, each class exactly |
| Registers.ThermocoupleFromIdentifier | src/lib.rs:97-104 | codes 1..8 name the thermocouple variants J, K, E, N, R, S, T and B |
| Registers.RtdFromIdentifier | src/lib.rs:105-112 | codes 10..17 name the eight RTD variants |
| Registers.ThermistorFromIdentifier | src/lib.rs:113-119 | codes 19..25 name the seven thermistor variants |
| Registers.ProbeFromIdentifier | src/lib.rs:94-123 | the inverse of the type code table: defined exactly for the assigned codes, and it gives the variant with that code |
| Registers.ProbeRoundTrip | src/lib.rs:94-123 | decoding a probe's type code gives its variant back |
| Registers.ProbeIdentifierInjective | src/lib.rs:94-123 | two probes have the same type code exactly when they are the same variant |
| ChannelSetup.ConfigurationNibble | src/lib.rs:51-59 | the thermocouple configuration nibble is below 16, so the 4-bit field loses nothing |
| ChannelSetup.NibbleFields | src/lib.rs:51-59 | the nibble's high bit is the configuration bit and its low three bits are the current code |
| ChannelSetup.NibbleParameters | src/lib.rs:51-59 | the inverse of the nibble: defined exactly when the low three bits are a used current code |
| ChannelSetup.NibbleRoundTrip | src/lib.rs:51-59 | decoding a nibble gives back both the sensor configuration and the current |
| ChannelSetup.NibbleBits | src/lib.rs:53-56 | four zero bits, the configuration bit and three current bits form the one byte 8 sc + oc |
| ChannelSetup.SensorConfigurationCode | src/lib.rs:52-58 | writing the three fields to a fresh buffer and reading the first byte back gives the configuration nibble; that byte always exists, so the unwrap cannot fail |
| ChannelSetup.ColdJunctionCode | src/lib.rs:322 | the cold-junction field is below 32, 0 exactly when there is no cold-junction channel, and it decodes back to the channel |
| ChannelSetup.CustomAddressCode | src/lib.rs:328 | the custom pointer field's value: 0 when there is no pointer, the pointer itself otherwise |
| ChannelSetup.ThermocoupleWord | src/lib.rs:318-328 | the thermocouple assignment word fits 32 bits |
| ChannelSetup.SenseResistorWord | src/lib.rs:355-360 | the sense resistor assignment word fits 32 bits |
| ChannelSetup.ThermocoupleFields | src/lib.rs:318-328 | bits 31..27 hold the type code, 26..22 the cold junction, 21..18 the nibble and 11..0 the low 12 bits of the custom pointer; bits 17..12 are always zero |
| ChannelSetup.PlainThermocouple | src/lib.rs:322-328 | with no cold-junction channel and no custom pointer, bits 26..22 and 11..0 are zero |
| ChannelSetup.CustomAddressTruncated | src/lib.rs:328 | a custom pointer wider than 12 bits is cut to its low 12 bits: the word equals the word of the truncated pointer |
| ChannelSetup.SenseResistorFields | src/lib.rs:355-360 | bits 31..27 of a sense resistor word are 29 and bits 26..0 are the low 27 bits of the raw value |
| ChannelSetup.CustomAddressBack | src/lib.rs:328 | a custom pointer other than 0 and below 0x1000 reads back from its 12-bit field |
| ChannelSetup.DecodeFields | src/lib.rs:318-328 | a word whose fields hold a thermocouple's codes decodes to that thermocouple's parameters |
| ChannelSetup.ThermocoupleRoundTrip | src/lib.rs:315-328 | a thermocouple word decodes to its parameters and its type field to its variant; the exceptions are a custom pointer of 0, which reads as none, and one wider than 12 bits |
| ChannelSetup.Frame | src/lib.rs:315-330 | the bytes handed to `spi_device.write`: seven bytes, the write opcode 0x02, then `BigEndian(address, 2)`, then `BigEndian(word, 4)` |
| ChannelSetup.FrameLayout | src/lib.rs:315-316 | a frame is 7 bytes: byte 0 is the opcode, bytes 1..2 are the big-endian address and bytes 3..6 the big-endian word |
| ChannelSetup.ConfigurationWrite | src/lib.rs:302-365 | a frame is written exactly for thermocouples and sense resistors, to the channel's configuration address, carrying the probe's type code in bits 31..27; RTDs and thermistors are unsupported |
| ChannelSetup.FrameBits | src/lib.rs:315-320 | the opcode byte, the 16 address bits and 32 word bits pack into the frame's seven bytes |
| ChannelSetup.FieldsBits | src/lib.rs:318-328 | five fields of widths 5, 5, 4, 6 and 12, written one after another, are the 32 bits of the word that holds them |
| ChannelSetup.ThermocoupleBits | src/lib.rs:318-328 | the five thermocouple fields as the driver writes them are the 32 bits of the thermocouple word |
| ChannelSetup.TypedValueBits | src/lib.rs:355-360 | a 5-bit type code followed by 27 raw bits is the 32-bit word holding both |
| ChannelSetup.ThermocoupleFrame | src/lib.rs:314-330 | the bytes the thermocouple branch builds in its buffer are exactly the frame of the thermocouple word at the channel's configuration address |
| ChannelSetup.SenseResistorFrame | src/lib.rs:351-363 | the bytes the sense resistor branch builds are exactly the frame of the sense resistor word at the channel's configuration address |
| ChannelSetup.SetupChannel | src/lib.rs:302-365 | the outcome of the driver's procedure is the closed-form `ConfigurationWrite` for every probe and channel |
| ByteBuffers.ByteBuffer.constructor | src/lib.rs:53 | a new buffer holds no bits |
| ByteBuffers.ByteBuffer.AsBytes | src/lib.rs:330 | the bytes shown are the bit stream packed into bytes, the last one padded with zero bits |
| ByteBuffers.ByteBuffer.WriteBit | src/lib.rs:54-56 | one bit is appended to the stream and the read position is kept |
| ByteBuffers.ByteBuffer.WriteBits | src/lib.rs:54-56 | the low n bits of the value are appended, most significant first |
| ByteBuffers.ByteBuffer.FlushBits | src/lib.rs:315-316 | a partly written byte is completed with zero bits; the bytes shown do not change |
| ByteBuffers.ByteBuffer.WriteU8 | src/lib.rs:315 | after padding to a byte boundary the byte is appended to the bytes shown |
| ByteBuffers.ByteBuffer.WriteU16 | src/lib.rs:316 | after padding to a byte boundary the value is appended as two big-endian bytes |
| ByteBuffers.ByteBuffer.ReadU8 | src/lib.rs:57 | the next unread byte and an advanced read position, or none when every byte has been read |
| Status.StatusFromByte | src/lib.rs:246-254 | start is set exactly when bit 7 is, done exactly when bit 6 is, and the channel is the low five bits, at most 31 |
| Status.UnusedBit | src/lib.rs:239-254 | bit 5 of the status byte has no effect on the decoded status |
| Status.StatusRoundTrip | src/lib.rs:246-254 | a status whose channel fits five bits is decoded back from its byte |
| Status.StatusByteRoundTrip | src/lib.rs:246-254 | decoding loses only bit 5: re-encoding a decoded byte gives the byte with bit 5 cleared |
| Status.StatusRequest | src/lib.rs:287-290 | the request `status` hands to the bus is `[0x03, 0x00, 0x00, 0x00]` |
| Status.StatusResult | src/lib.rs:292-297 | a successful transfer gives the status decoded from the fourth received byte; a failed one passes the bus error through |

## Left out

- The SPI transport (`spi_device.write`, `spi_device.transfer`) is I/O. A write is modelled as the frame handed to the bus. A transfer is modelled as its outcome and the four received bytes, both given as parameters of `StatusResult`.
- `SenseResistorFrame`: the `f32` to `FixedU32<U25>` conversion of the resistance is floating point in a foreign crate. The probe carries the raw 32-bit fixed-point word instead. `FixedU32<U25>` only holds values in [0, 128); anything outside that range does not fit, and whether `from_num` then panics or wraps is up to that crate. The comment beside the conversion speaks of a (17,10) format, but the code uses 25 fractional bits. The model takes neither. With 25 fractional bits, the 27-bit field keeps only two integer bits, so the field carries the resistance modulo 4.0 (a resistance of 5.5 is sent as 1.5). `ChannelSetup.SenseResistorFields` proves this cut (bits 26..0 are the raw word modulo 2^27); the conversion itself is not modelled.
- RTD and thermistor probes reach `unimplemented!()` in the driver. They are modelled only as the `Unsupported` outcome, with no register layout.
- `read_temperature` and `read_multi_temperature` are `todo!()` stubs, and `LTC2983Result` has no decoder in the code. Result-register decoding is therefore not modelled.
- `GLOBAL_CONFIG_REGISTER` and `MULTI_CHANNEL_MASK_REGISTER` are unused. `new` only stores the SPI device.
- The empty `SenseResistorParameters` struct is not modelled.
- The `bytebuffer` crate is not part of this model; its behaviour is modelled from its documentation. The crate ORs each bit into the last byte of its vector. The model keeps the partly written byte apart as a number and a bit count. Both show the same bytes, `AsBytes()`. The crate's remaining methods are not modelled.
- `ByteBuffers.ByteBuffer.ReadU8`: the crate returns an I/O error when no byte is left; the model returns `None`.
- `Registers.ChannelFromIdentifier`, `Registers.OcCurrentFromIdentifier`, `Registers.ProbeFromIdentifier`, `Registers.ThermocoupleFromIdentifier`, `Registers.RtdFromIdentifier`, `Registers.ThermistorFromIdentifier`, `Registers.Shape`, `ChannelSetup.NibbleParameters`, `ChannelSetup.DecodeThermocouple` and `Status.StatusByte` are not in the driver. They are reference decoders and encoders that the injectivity and round-trip lemmas use. The rows of the three per-group decoders cite the table lines they invert.
- The status byte and the channel field are modelled as `bv8`, as the driver's `u8`; the start and done flags are booleans, as in the driver. Everything else uses unbounded naturals bounded by subset types.
