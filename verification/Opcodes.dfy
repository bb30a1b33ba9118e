/** Opcodes, and the lowest protocol version a receiver needs to decode each. */
module Opcodes {
  import opened Bytes

  const PROTOCOL_VERSION: u16 := 0x29

  const OP_SYS_HELLO: u16 := 0x00
  const OP_SYS_BAY_CONFIG: u16 := 0x02
  const OP_SYS_LINKS: u16 := 0x03
  const OP_DEV_CONNECT: u16 := 0x04
  const OP_DEV_POWER_CHANGE: u16 := 0x05
  const OP_MX_ROUTE: u16 := 0x08
  const OP_RC_TX_ACTION: u16 := 0x0E
  const OP_AUDIO_SET_VOLUME: u16 := 0x14
  const OP_AUDIO_VOLUME_MUTE: u16 := 0x12
  const OP_V2IP_SOURCE_SWITCH: u16 := 0x1F
  const OP_CHANGE_BAY_NAME: u16 := 0x22
  const OP_SYS_BAY_CONFIG_SECONDARY: u16 := 0x23
  const OP_V2IP_MANUAL_SRC_SWITCH: u16 := 0x24
  const OP_SYS_BAY_V2IP_SOURCES: u16 := 0x26
  const OP_BAY_HIDE: u16 := 0x27
  const OP_SYS_REBOOT: u16 := 0x28
  const OP_BAY_SIGNAL_STATUS: u16 := 0x31
  const OP_BAY_MIRROR_STATUS: u16 := 0x32
  const OP_BAY_EDID_PROFILE: u16 := 0x34
  const OP_BAY_FILTER_STATUS: u16 := 0x38
  const OP_BAY_STATUS: u16 := 0x39
  const OP_V2IP_DEVICE_CFG: u16 := 0x3C
  const OP_AMP_ZONE_SETTINGS: u16 := 0x3D
  const OP_V2IP_STATS: u16 := 0x3F
  const OP_V2IP_TILING: u16 := 0x40
  const OP_V2IP_MULTIVIEWER: u16 := 0x42
  const OP_V2IP_AUDIO: u16 := 0x43
  const OP_V2IP_BAY_MAPPINGS: u16 := 0x44

  function ProtocolFor(opcode: u16): u16 {
    match opcode
    case 0x00 | 0x01 | 0x02 | 0x03 | 0x05 | 0x06 | 0x07 | 0x08 | 0x09 | 0x0B | 0x0D => 0x01
    case 0x0F | 0x10 | 0x11 | 0x12 | 0x13 | 0x15 | 0x16 | 0x28 | 0x2B => 0x01
    case 0x1F | 0x20 | 0x21 | 0x22 | 0x27 | 0x2A | 0x2C | 0x2E | 0x2F | 0x30 | 0x31 | 0x32 => 0x06
    case 0x23 | 0x24 => 0x07
    case 0x34 => 0x08
    case 0x26 => 0x09
    case 0x35 => 0x0A
    case 0x36 => 0x0B
    case 0x0C | 0x0E | 0x37 => 0x0C
    case 0x38 => 0x0E
    case 0x39 | 0x3A => 0x0F
    case 0x14 | 0x3C => 0x11
    case 0x3F => 0x13
    case 0x40 => 0x14
    case 0x41 => 0x15
    case 0x42 => 0x16
    case 0x0A => 0x19
    case 0x43 => 0x1A
    case 0x04 => 0x1B
    case 0x3D | 0x3E | 0x44 => 0x1C
    case 0x3B | 0x45 => 0x1D
    case 0x46 => 0x1E
    case 0x47 => 0x1F
    case 0x29 => 0x22
    case 0x48 => 0x23
    case 0x49 => 0x28
    case _ => PROTOCOL_VERSION
  }

  /** The floors of the opcodes sixteen at a time, from 0x00 on, with the sender's own version
      for the retired and unassigned among them. */
  function Floors(row: nat): (fs: seq<u16>)
    ensures |fs| == 16
  {
    match row
    case 0 => [0x01, 0x01, 0x01, 0x01, 0x1B, 0x01, 0x01, 0x01, 0x01, 0x01, 0x19, 0x01, 0x0C, 0x01, 0x0C, 0x01]
    case 1 => [0x01, 0x01, 0x01, 0x01, 0x11, 0x01, 0x01, 0x29, 0x29, 0x29, 0x29, 0x29, 0x29, 0x29, 0x29, 0x06]
    case 2 => [0x06, 0x06, 0x06, 0x07, 0x07, 0x29, 0x09, 0x06, 0x01, 0x22, 0x06, 0x01, 0x06, 0x29, 0x06, 0x06]
    case 3 => [0x06, 0x06, 0x06, 0x29, 0x08, 0x0A, 0x0B, 0x0C, 0x0E, 0x0F, 0x0F, 0x1D, 0x11, 0x1C, 0x1C, 0x13]
    case 4 => [0x14, 0x15, 0x16, 0x1A, 0x1C, 0x1D, 0x1E, 0x1F, 0x23, 0x28, 0x29, 0x29, 0x29, 0x29, 0x29, 0x29]
    case _ => [0x29, 0x29, 0x29, 0x29, 0x29, 0x29, 0x29, 0x29, 0x29, 0x29, 0x29, 0x29, 0x29, 0x29, 0x29, 0x29]
  }

  lemma FloorsRow0(i: nat)
    requires i < 16
    ensures ProtocolFor(0 + i) == Floors(0)[i]
  {
  }

  lemma FloorsRow1(i: nat)
    requires i < 16
    ensures ProtocolFor(16 + i) == Floors(1)[i]
  {
  }

  lemma FloorsRow2(i: nat)
    requires i < 16
    ensures ProtocolFor(32 + i) == Floors(2)[i]
  {
  }

  lemma FloorsRow3(i: nat)
    requires i < 16
    ensures ProtocolFor(48 + i) == Floors(3)[i]
  {
  }

  lemma FloorsRow4(i: nat)
    requires i < 16
    ensures ProtocolFor(64 + i) == Floors(4)[i]
  {
  }

  lemma FloorsBeyond(row: nat, i: nat)
    requires 5 <= row < 0x1000 && i < 16
    ensures ProtocolFor(16 * row + i) == Floors(row)[i]
  {
  }

  /** Every opcode, sixteen to a row. */
  lemma FloorOf(row: nat, i: nat)
    requires i < 16 && row < 0x1000
    ensures ProtocolFor(16 * row + i) == Floors(row)[i]
  {
    hide ProtocolFor;
    hide Floors;
    if row == 0 {
      FloorsRow0(i);
    } else if row == 1 {
      FloorsRow1(i);
    } else if row == 2 {
      FloorsRow2(i);
    } else if row == 3 {
      FloorsRow3(i);
    } else if row == 4 {
      FloorsRow4(i);
    } else {
      FloorsBeyond(row, i);
    }
  }
}
