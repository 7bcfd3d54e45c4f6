/** The checksum of the music in the LAME tag (CRC_update_lookup, UpdateMusicCRC of VbrTag.c): a table for eight turns
    at once of a reflected division, which is the division of `Crc` with all bits the other way round. */
module MusicCrc {
  import opened Bits
  import opened Crc

  // ----- crc16_lookup

  function Lookup0(i: bv16): bv16 {
    match i
    case 0x00 => 0x0000 case 0x01 => 0xC0C1 case 0x02 => 0xC181 case 0x03 => 0x0140
    case 0x04 => 0xC301 case 0x05 => 0x03C0 case 0x06 => 0x0280 case 0x07 => 0xC241
    case 0x08 => 0xC601 case 0x09 => 0x06C0 case 0x0a => 0x0780 case 0x0b => 0xC741
    case 0x0c => 0x0500 case 0x0d => 0xC5C1 case 0x0e => 0xC481 case 0x0f => 0x0440
    case 0x10 => 0xCC01 case 0x11 => 0x0CC0 case 0x12 => 0x0D80 case 0x13 => 0xCD41
    case 0x14 => 0x0F00 case 0x15 => 0xCFC1 case 0x16 => 0xCE81 case 0x17 => 0x0E40
    case 0x18 => 0x0A00 case 0x19 => 0xCAC1 case 0x1a => 0xCB81 case 0x1b => 0x0B40
    case 0x1c => 0xC901 case 0x1d => 0x09C0 case 0x1e => 0x0880 case _ => 0xC841
  }

  function Lookup1(i: bv16): bv16 {
    match i
    case 0x20 => 0xD801 case 0x21 => 0x18C0 case 0x22 => 0x1980 case 0x23 => 0xD941
    case 0x24 => 0x1B00 case 0x25 => 0xDBC1 case 0x26 => 0xDA81 case 0x27 => 0x1A40
    case 0x28 => 0x1E00 case 0x29 => 0xDEC1 case 0x2a => 0xDF81 case 0x2b => 0x1F40
    case 0x2c => 0xDD01 case 0x2d => 0x1DC0 case 0x2e => 0x1C80 case 0x2f => 0xDC41
    case 0x30 => 0x1400 case 0x31 => 0xD4C1 case 0x32 => 0xD581 case 0x33 => 0x1540
    case 0x34 => 0xD701 case 0x35 => 0x17C0 case 0x36 => 0x1680 case 0x37 => 0xD641
    case 0x38 => 0xD201 case 0x39 => 0x12C0 case 0x3a => 0x1380 case 0x3b => 0xD341
    case 0x3c => 0x1100 case 0x3d => 0xD1C1 case 0x3e => 0xD081 case _ => 0x1040
  }

  function Lookup2(i: bv16): bv16 {
    match i
    case 0x40 => 0xF001 case 0x41 => 0x30C0 case 0x42 => 0x3180 case 0x43 => 0xF141
    case 0x44 => 0x3300 case 0x45 => 0xF3C1 case 0x46 => 0xF281 case 0x47 => 0x3240
    case 0x48 => 0x3600 case 0x49 => 0xF6C1 case 0x4a => 0xF781 case 0x4b => 0x3740
    case 0x4c => 0xF501 case 0x4d => 0x35C0 case 0x4e => 0x3480 case 0x4f => 0xF441
    case 0x50 => 0x3C00 case 0x51 => 0xFCC1 case 0x52 => 0xFD81 case 0x53 => 0x3D40
    case 0x54 => 0xFF01 case 0x55 => 0x3FC0 case 0x56 => 0x3E80 case 0x57 => 0xFE41
    case 0x58 => 0xFA01 case 0x59 => 0x3AC0 case 0x5a => 0x3B80 case 0x5b => 0xFB41
    case 0x5c => 0x3900 case 0x5d => 0xF9C1 case 0x5e => 0xF881 case _ => 0x3840
  }

  function Lookup3(i: bv16): bv16 {
    match i
    case 0x60 => 0x2800 case 0x61 => 0xE8C1 case 0x62 => 0xE981 case 0x63 => 0x2940
    case 0x64 => 0xEB01 case 0x65 => 0x2BC0 case 0x66 => 0x2A80 case 0x67 => 0xEA41
    case 0x68 => 0xEE01 case 0x69 => 0x2EC0 case 0x6a => 0x2F80 case 0x6b => 0xEF41
    case 0x6c => 0x2D00 case 0x6d => 0xEDC1 case 0x6e => 0xEC81 case 0x6f => 0x2C40
    case 0x70 => 0xE401 case 0x71 => 0x24C0 case 0x72 => 0x2580 case 0x73 => 0xE541
    case 0x74 => 0x2700 case 0x75 => 0xE7C1 case 0x76 => 0xE681 case 0x77 => 0x2640
    case 0x78 => 0x2200 case 0x79 => 0xE2C1 case 0x7a => 0xE381 case 0x7b => 0x2340
    case 0x7c => 0xE101 case 0x7d => 0x21C0 case 0x7e => 0x2080 case _ => 0xE041
  }

  function Lookup4(i: bv16): bv16 {
    match i
    case 0x80 => 0xA001 case 0x81 => 0x60C0 case 0x82 => 0x6180 case 0x83 => 0xA141
    case 0x84 => 0x6300 case 0x85 => 0xA3C1 case 0x86 => 0xA281 case 0x87 => 0x6240
    case 0x88 => 0x6600 case 0x89 => 0xA6C1 case 0x8a => 0xA781 case 0x8b => 0x6740
    case 0x8c => 0xA501 case 0x8d => 0x65C0 case 0x8e => 0x6480 case 0x8f => 0xA441
    case 0x90 => 0x6C00 case 0x91 => 0xACC1 case 0x92 => 0xAD81 case 0x93 => 0x6D40
    case 0x94 => 0xAF01 case 0x95 => 0x6FC0 case 0x96 => 0x6E80 case 0x97 => 0xAE41
    case 0x98 => 0xAA01 case 0x99 => 0x6AC0 case 0x9a => 0x6B80 case 0x9b => 0xAB41
    case 0x9c => 0x6900 case 0x9d => 0xA9C1 case 0x9e => 0xA881 case _ => 0x6840
  }

  function Lookup5(i: bv16): bv16 {
    match i
    case 0xa0 => 0x7800 case 0xa1 => 0xB8C1 case 0xa2 => 0xB981 case 0xa3 => 0x7940
    case 0xa4 => 0xBB01 case 0xa5 => 0x7BC0 case 0xa6 => 0x7A80 case 0xa7 => 0xBA41
    case 0xa8 => 0xBE01 case 0xa9 => 0x7EC0 case 0xaa => 0x7F80 case 0xab => 0xBF41
    case 0xac => 0x7D00 case 0xad => 0xBDC1 case 0xae => 0xBC81 case 0xaf => 0x7C40
    case 0xb0 => 0xB401 case 0xb1 => 0x74C0 case 0xb2 => 0x7580 case 0xb3 => 0xB541
    case 0xb4 => 0x7700 case 0xb5 => 0xB7C1 case 0xb6 => 0xB681 case 0xb7 => 0x7640
    case 0xb8 => 0x7200 case 0xb9 => 0xB2C1 case 0xba => 0xB381 case 0xbb => 0x7340
    case 0xbc => 0xB101 case 0xbd => 0x71C0 case 0xbe => 0x7080 case _ => 0xB041
  }

  function Lookup6(i: bv16): bv16 {
    match i
    case 0xc0 => 0x5000 case 0xc1 => 0x90C1 case 0xc2 => 0x9181 case 0xc3 => 0x5140
    case 0xc4 => 0x9301 case 0xc5 => 0x53C0 case 0xc6 => 0x5280 case 0xc7 => 0x9241
    case 0xc8 => 0x9601 case 0xc9 => 0x56C0 case 0xca => 0x5780 case 0xcb => 0x9741
    case 0xcc => 0x5500 case 0xcd => 0x95C1 case 0xce => 0x9481 case 0xcf => 0x5440
    case 0xd0 => 0x9C01 case 0xd1 => 0x5CC0 case 0xd2 => 0x5D80 case 0xd3 => 0x9D41
    case 0xd4 => 0x5F00 case 0xd5 => 0x9FC1 case 0xd6 => 0x9E81 case 0xd7 => 0x5E40
    case 0xd8 => 0x5A00 case 0xd9 => 0x9AC1 case 0xda => 0x9B81 case 0xdb => 0x5B40
    case 0xdc => 0x9901 case 0xdd => 0x59C0 case 0xde => 0x5880 case _ => 0x9841
  }

  function Lookup7(i: bv16): bv16 {
    match i
    case 0xe0 => 0x8801 case 0xe1 => 0x48C0 case 0xe2 => 0x4980 case 0xe3 => 0x8941
    case 0xe4 => 0x4B00 case 0xe5 => 0x8BC1 case 0xe6 => 0x8A81 case 0xe7 => 0x4A40
    case 0xe8 => 0x4E00 case 0xe9 => 0x8EC1 case 0xea => 0x8F81 case 0xeb => 0x4F40
    case 0xec => 0x8D01 case 0xed => 0x4DC0 case 0xee => 0x4C80 case 0xef => 0x8C41
    case 0xf0 => 0x4400 case 0xf1 => 0x84C1 case 0xf2 => 0x8581 case 0xf3 => 0x4540
    case 0xf4 => 0x8701 case 0xf5 => 0x47C0 case 0xf6 => 0x4680 case 0xf7 => 0x8641
    case 0xf8 => 0x8201 case 0xf9 => 0x42C0 case 0xfa => 0x4380 case 0xfb => 0x8341
    case 0xfc => 0x4100 case 0xfd => 0x81C1 case 0xfe => 0x8081 case _ => 0x4040
  }

  /** crc16_lookup */
  function Crc16Lookup(i: bv16): bv16 {
    if i < 0x20 then Lookup0(i)
    else if i < 0x40 then Lookup1(i)
    else if i < 0x60 then Lookup2(i)
    else if i < 0x80 then Lookup3(i)
    else if i < 0xa0 then Lookup4(i)
    else if i < 0xc0 then Lookup5(i)
    else if i < 0xe0 then Lookup6(i)
    else Lookup7(i)
  }

  /** One bit of the reflected division by x^16 + x^15 + x^2 + 1. */
  function Turn(x: bv16): bv16 { if x & 1 == 1 then (x >> 1) ^ 0xA001 else x >> 1 }

  function Turns8(x: bv16): bv16 { Turn(Turn(Turn(Turn(Turn(Turn(Turn(Turn(x)))))))) }

  lemma Table0(i: bv16)
    requires i < 0x20
    ensures Lookup0(i) == Turns8(i)
  {
    match i
    case 0x00 => case 0x01 => case 0x02 => case 0x03 => case 0x04 => case 0x05 => case 0x06 => case 0x07 =>
    case 0x08 => case 0x09 => case 0x0a => case 0x0b => case 0x0c => case 0x0d => case 0x0e => case 0x0f =>
    case 0x10 => case 0x11 => case 0x12 => case 0x13 => case 0x14 => case 0x15 => case 0x16 => case 0x17 =>
    case 0x18 => case 0x19 => case 0x1a => case 0x1b => case 0x1c => case 0x1d => case 0x1e =>
    case _ => assert i == 0x1f;
  }

  lemma Table1(i: bv16)
    requires 0x20 <= i < 0x40
    ensures Lookup1(i) == Turns8(i)
  {
    match i
    case 0x20 => case 0x21 => case 0x22 => case 0x23 => case 0x24 => case 0x25 => case 0x26 => case 0x27 =>
    case 0x28 => case 0x29 => case 0x2a => case 0x2b => case 0x2c => case 0x2d => case 0x2e => case 0x2f =>
    case 0x30 => case 0x31 => case 0x32 => case 0x33 => case 0x34 => case 0x35 => case 0x36 => case 0x37 =>
    case 0x38 => case 0x39 => case 0x3a => case 0x3b => case 0x3c => case 0x3d => case 0x3e =>
    case _ => assert i == 0x3f;
  }

  lemma Table2(i: bv16)
    requires 0x40 <= i < 0x60
    ensures Lookup2(i) == Turns8(i)
  {
    match i
    case 0x40 => case 0x41 => case 0x42 => case 0x43 => case 0x44 => case 0x45 => case 0x46 => case 0x47 =>
    case 0x48 => case 0x49 => case 0x4a => case 0x4b => case 0x4c => case 0x4d => case 0x4e => case 0x4f =>
    case 0x50 => case 0x51 => case 0x52 => case 0x53 => case 0x54 => case 0x55 => case 0x56 => case 0x57 =>
    case 0x58 => case 0x59 => case 0x5a => case 0x5b => case 0x5c => case 0x5d => case 0x5e =>
    case _ => assert i == 0x5f;
  }

  lemma Table3(i: bv16)
    requires 0x60 <= i < 0x80
    ensures Lookup3(i) == Turns8(i)
  {
    match i
    case 0x60 => case 0x61 => case 0x62 => case 0x63 => case 0x64 => case 0x65 => case 0x66 => case 0x67 =>
    case 0x68 => case 0x69 => case 0x6a => case 0x6b => case 0x6c => case 0x6d => case 0x6e => case 0x6f =>
    case 0x70 => case 0x71 => case 0x72 => case 0x73 => case 0x74 => case 0x75 => case 0x76 => case 0x77 =>
    case 0x78 => case 0x79 => case 0x7a => case 0x7b => case 0x7c => case 0x7d => case 0x7e =>
    case _ => assert i == 0x7f;
  }

  lemma Table4(i: bv16)
    requires 0x80 <= i < 0xa0
    ensures Lookup4(i) == Turns8(i)
  {
    match i
    case 0x80 => case 0x81 => case 0x82 => case 0x83 => case 0x84 => case 0x85 => case 0x86 => case 0x87 =>
    case 0x88 => case 0x89 => case 0x8a => case 0x8b => case 0x8c => case 0x8d => case 0x8e => case 0x8f =>
    case 0x90 => case 0x91 => case 0x92 => case 0x93 => case 0x94 => case 0x95 => case 0x96 => case 0x97 =>
    case 0x98 => case 0x99 => case 0x9a => case 0x9b => case 0x9c => case 0x9d => case 0x9e =>
    case _ => assert i == 0x9f;
  }

  lemma Table5(i: bv16)
    requires 0xa0 <= i < 0xc0
    ensures Lookup5(i) == Turns8(i)
  {
    match i
    case 0xa0 => case 0xa1 => case 0xa2 => case 0xa3 => case 0xa4 => case 0xa5 => case 0xa6 => case 0xa7 =>
    case 0xa8 => case 0xa9 => case 0xaa => case 0xab => case 0xac => case 0xad => case 0xae => case 0xaf =>
    case 0xb0 => case 0xb1 => case 0xb2 => case 0xb3 => case 0xb4 => case 0xb5 => case 0xb6 => case 0xb7 =>
    case 0xb8 => case 0xb9 => case 0xba => case 0xbb => case 0xbc => case 0xbd => case 0xbe =>
    case _ => assert i == 0xbf;
  }

  lemma Table6(i: bv16)
    requires 0xc0 <= i < 0xe0
    ensures Lookup6(i) == Turns8(i)
  {
    match i
    case 0xc0 => case 0xc1 => case 0xc2 => case 0xc3 => case 0xc4 => case 0xc5 => case 0xc6 => case 0xc7 =>
    case 0xc8 => case 0xc9 => case 0xca => case 0xcb => case 0xcc => case 0xcd => case 0xce => case 0xcf =>
    case 0xd0 => case 0xd1 => case 0xd2 => case 0xd3 => case 0xd4 => case 0xd5 => case 0xd6 => case 0xd7 =>
    case 0xd8 => case 0xd9 => case 0xda => case 0xdb => case 0xdc => case 0xdd => case 0xde =>
    case _ => assert i == 0xdf;
  }

  lemma Table7(i: bv16)
    requires 0xe0 <= i < 0x100
    ensures Lookup7(i) == Turns8(i)
  {
    match i
    case 0xe0 => case 0xe1 => case 0xe2 => case 0xe3 => case 0xe4 => case 0xe5 => case 0xe6 => case 0xe7 =>
    case 0xe8 => case 0xe9 => case 0xea => case 0xeb => case 0xec => case 0xed => case 0xee => case 0xef =>
    case 0xf0 => case 0xf1 => case 0xf2 => case 0xf3 => case 0xf4 => case 0xf5 => case 0xf6 => case 0xf7 =>
    case 0xf8 => case 0xf9 => case 0xfa => case 0xfb => case 0xfc => case 0xfd => case 0xfe =>
    case _ => assert i == 0xff;
  }

  /** The table has eight turns of every byte. */
  lemma TableIs(i: bv16)
    requires i <= 0xff
    ensures Crc16Lookup(i) == Turns8(i)
  {
    hide Turns8, Lookup0, Lookup1, Lookup2, Lookup3, Lookup4, Lookup5, Lookup6, Lookup7;
    if i < 0x20 { Table0(i); }
    else if i < 0x40 { Table1(i); }
    else if i < 0x60 { Table2(i); }
    else if i < 0x80 { Table3(i); }
    else if i < 0xa0 { Table4(i); }
    else if i < 0xc0 { Table5(i); }
    else if i < 0xe0 { Table6(i); }
    else { Table7(i); }
  }

  function Apart(x: bv16, v: bv16): bv16 { x ^ v }

  function Bit(on: bool, v: bv16): bv16 { if on then v else 0 }

  function FromBits(b0: bool, b1: bool, b2: bool, b3: bool, b4: bool, b5: bool, b6: bool, b7: bool): bv16 {
    Bit(b0, 1) | Bit(b1, 2) | Bit(b2, 4) | Bit(b3, 8) | Bit(b4, 16) | Bit(b5, 32) | Bit(b6, 64) | Bit(b7, 128)
  }

  /** A byte as a bit vector. */
  function Wide(x: byte): bv16 {
    FromBits(x % 2 == 1, x / 2 % 2 == 1, x / 4 % 2 == 1, x / 8 % 2 == 1,
             x / 16 % 2 == 1, x / 32 % 2 == 1, x / 64 % 2 == 1, x / 128 % 2 == 1)
  }

  /** The upper byte only moves down. */
  lemma UpperMoves(x: bv16)
    ensures Turns8(x) == (x >> 8) ^ Turns8(x & 0xff)
  {
  }

  lemma UpperStays(crc: bv16, value: bv16)
    requires value <= 0xff
    ensures (crc ^ value) >> 8 == crc >> 8 && (crc ^ value) & 0xff <= 0xff
  {
  }

  /** CRC_update_lookup */
  method CrcUpdateLookup(value: bv16, crc: bv16) returns (r: bv16)
    requires value <= 0xff
    ensures r == Turns8(Apart(crc, value))
  {
    hide Turns8, Crc16Lookup;
    var tmp := crc ^ value;
    UpperMoves(tmp);
    UpperStays(crc, value);
    TableIs(tmp & 0xff);
    r := (crc >> 8) ^ Crc16Lookup(tmp & 0xff);
  }

  // ----- as a division

  function Low(v: bv16): bool { v & 1 != 0 }

  function Half(v: bv16): bv16 { v >> 1 }

  function Halves(x: bv16, n: nat): bv16 { if n == 0 then x else Halves(Half(x), n - 1) }

  /** The lowest `n` bits, the lowest first. */
  function LowBits(x: bv16, n: nat): (b: seq<bool>)
    ensures |b| == n
  {
    if n == 0 then [] else [Low(x)] + LowBits(Half(x), n - 1)
  }

  /** The bits of a register, the lowest first. */
  function LowFirst(x: bv16): (b: seq<bool>)
    ensures |b| == 16
  {
    LowBits(x, 16)
  }

  lemma {:induction false} ApartBits(x: bv16, v: bv16, n: nat)
    ensures LowBits(Apart(x, v), n) == XorAll(LowBits(x, n), LowBits(v, n))
    decreases n
  {
    hide Low, Half, Apart;
    if n > 0 {
      ApartHalf(x, v);
      ApartBits(Half(x), Half(v), n - 1);
    }
  }

  lemma ApartHalf(x: bv16, v: bv16)
    ensures Half(Apart(x, v)) == Apart(Half(x), Half(v))
    ensures Low(Apart(x, v)) <==> Low(x) != Low(v)
  {
  }

  lemma {:induction false} NoBits(n: nat)
    ensures LowBits(0, n) == seq(n, i => false)
  {
    hide Low, Half;
    if n > 0 {
      ZeroHalf();
      NoBits(n - 1);
    }
  }

  lemma ZeroHalf()
    ensures Half(0) == 0 && !Low(0)
  {
  }

  /** Shifting down moves the bits to the front. */
  lemma {:induction false} HalfBits(x: bv16, n: nat)
    requires n > 0
    ensures LowBits(Half(x), n) == LowBits(x, n + 1)[1..] && LowBits(x, n)[0] == Low(x)
  {
    hide Low, Half;
  }

  lemma {:induction false} LowBitsMore(x: bv16, n: nat, k: nat)
    ensures LowBits(x, n + k) == LowBits(x, n) + LowBits(Halves(x, n), k)
    decreases n
  {
    hide Low, Half;
    if n > 0 {
      LowBitsMore(Half(x), n - 1, k);
      assert Halves(x, n) == Halves(Half(x), n - 1);
      assert LowBits(x, n + k) == [Low(x)] + LowBits(Half(x), n - 1 + k);
    }
  }

  lemma Halved(x: bv16)
    ensures Halves(x, 16) == 0
  {
    Fours(x, 12);
    Fours(x >> 4, 8);
    Fours(x >> 4 >> 4, 4);
    Fours(x >> 4 >> 4 >> 4, 0);
    Shift16(x);
  }

  lemma Fours(x: bv16, n: nat)
    ensures Halves(x, n + 4) == Halves(x >> 4, n)
  {
    Half4(x);
    hide Half;
    assert Halves(x, n + 4) == Halves(Half(Half(x)), n + 2);
  }

  lemma Half4(x: bv16)
    ensures Half(Half(Half(Half(x)))) == x >> 4
  {
  }

  lemma Shift16(x: bv16)
    ensures x >> 4 >> 4 >> 4 >> 4 == 0
  {
  }

  lemma GeneratorBits()
    ensures LowFirst(0xA001) == GENERATOR
  {
    hide LowBits, XorAll;
    Step(0xA001, 15);
    Step(0x5000, 14);
    Step(0x2800, 13);
    Step(0x1400, 12);
    Step(0x0A00, 11);
    Step(0x0500, 10);
    Step(0x0280, 9);
    Step(0x0140, 8);
    Step(0x00A0, 7);
    Step(0x0050, 6);
    Step(0x0028, 5);
    Step(0x0014, 4);
    Step(0x000A, 3);
    Step(0x0005, 2);
    Step(0x0002, 1);
    Step(0x0001, 0);
    NoneLeft(0);
  }

  lemma Step(x: bv16, n: nat)
    ensures LowBits(x, n + 1) == [Low(x)] + LowBits(Half(x), n)
  {
  }

  lemma NoneLeft(x: bv16)
    ensures LowBits(x, 0) == []
  {
  }

  lemma TurnIs(x: bv16, v: bv16)
    ensures Turn(Apart(x, v & 1)) == if Low(x) != Low(v) then Apart(Half(x), 0xA001) else Half(x)
  {
    LowestOnly(v);
    if Low(v) { Flipped(x); } else { NothingApart(x); }
  }

  lemma LowestOnly(v: bv16)
    ensures v & 1 == if Low(v) then 1 else 0
  {
  }

  lemma Flipped(x: bv16)
    ensures Turn(Apart(x, 1)) == if Low(x) then Half(x) else Apart(Half(x), 0xA001)
  {
  }

  lemma NothingApart(x: bv16)
    ensures Apart(x, 0) == x
  {
  }

  /** A turn is a step of the division, with the register the other way round. */
  lemma TurnDivides(x: bv16, v: bv16)
    ensures LowFirst(Turn(Apart(x, v & 1))) == Divide(LowFirst(x), Low(v))
  {
    hide Turn, LowBits, Low, Half, Apart, Halves, XorAll;
    TurnIs(x, v);
    HalfBits(x, 16);
    LowBitsMore(x, 16, 1);
    Halved(x);
    OneBit();
    assert LowBits(Half(x), 16) == LowFirst(x)[1..] + [false];
    ApartBits(Half(x), 0xA001, 16);
    GeneratorBits();
  }
  lemma OneBit() ensures LowBits(0, 1) == [false] { }

  function Turns(x: bv16, n: nat): bv16
    decreases n
  {
    if n == 0 then x else Turns(Turn(x), n - 1)
  }

  lemma Eight(x: bv16)
    ensures Turns(x, 8) == Turns8(x)
  {
    hide Turn;
    assert Turns(x, 8) == Turns(Turn(Turn(x)), 6);
    assert Turns(Turn(Turn(x)), 6) == Turns(Turn(Turn(Turn(Turn(x)))), 4);
  }

  /** The bits of the byte that are not due yet only move down. */
  lemma RestMoves(x: bv16, v: bv16)
    ensures Turn(Apart(x, v)) == Apart(Turn(Apart(x, v & 1)), Half(v))
  {
    RestShifts(x, v);
  }

  lemma RestShifts(x: bv16, v: bv16)
    ensures Turn(x ^ v) == Turn(x ^ (v & 1)) ^ (v >> 1)
  {
  }

  /** `n` turns divide on over the lowest bits of `v`, if it has no others. */
  lemma {:induction false} TurnsDivide(x: bv16, v: bv16, n: nat)
    requires Halves(v, n) == 0
    ensures LowFirst(Turns(Apart(x, v), n)) == DivideAll(LowFirst(x), LowBits(v, n))
    decreases n
  {
    hide Turn, LowFirst, Low, Half, Apart, Divide;
    if n == 0 {
      NothingApart(x);
    } else {
      var y := Turn(Apart(x, v & 1));
      RestMoves(x, v);
      TurnDivides(x, v);
      TurnsDivide(y, Half(v), n - 1);
      DivideFirst(LowFirst(x), Low(v), LowBits(Half(v), n - 1));
    }
  }

  lemma ByteHalves(v: bv16)
    requires v <= 0xff
    ensures Halves(v, 8) == 0
  {
    Fours(v, 4);
    Fours(v >> 4, 0);
    ByteGone(v);
  }

  lemma ByteGone(v: bv16)
    requires v <= 0xff
    ensures v >> 4 >> 4 == 0
  {
  }

  // ----- the music

  function MusicAll(bytes: seq<byte>, crc: bv16): bv16 {
    if bytes == [] then crc else Turns8(Apart(MusicAll(bytes[..|bytes| - 1], crc), Wide(bytes[|bytes| - 1])))
  }

  /** The bits of a byte, the lowest first. */
  function ByteLowFirst(x: byte): (b: seq<bool>)
    ensures |b| == 8
  {
    [x % 2 == 1, x / 2 % 2 == 1, x / 4 % 2 == 1, x / 8 % 2 == 1,
     x / 16 % 2 == 1, x / 32 % 2 == 1, x / 64 % 2 == 1, x / 128 % 2 == 1]
  }

  function AllBits(bytes: seq<byte>): (b: seq<bool>)
    ensures |b| == 8 * |bytes|
  {
    if bytes == [] then [] else AllBits(bytes[..|bytes| - 1]) + ByteLowFirst(bytes[|bytes| - 1])
  }

  lemma FromBitsSmall(b0: bool, b1: bool, b2: bool, b3: bool, b4: bool, b5: bool, b6: bool, b7: bool)
    ensures FromBits(b0, b1, b2, b3, b4, b5, b6, b7) <= 0xff
  {
  }

  lemma ByteSmall(x: byte)
    ensures Wide(x) <= 0xff
  {
    hide FromBits;
    FromBitsSmall(x % 2 == 1, x / 2 % 2 == 1, x / 4 % 2 == 1, x / 8 % 2 == 1,
                  x / 16 % 2 == 1, x / 32 % 2 == 1, x / 64 % 2 == 1, x / 128 % 2 == 1);
  }

  lemma FromBitsLow(b0: bool, b1: bool, b2: bool, b3: bool, b4: bool, b5: bool, b6: bool, b7: bool, n: nat)
    ensures LowBits(FromBits(b0, b1, b2, b3, b4, b5, b6, b7), n + 1)
         == [b0] + LowBits(FromBits(b1, b2, b3, b4, b5, b6, b7, false), n)
  {
    FromBitsStep(b0, b1, b2, b3, b4, b5, b6, b7);
    hide FromBits, Low, Half;
  }

  lemma FromBitsStep(b0: bool, b1: bool, b2: bool, b3: bool, b4: bool, b5: bool, b6: bool, b7: bool)
    ensures Low(FromBits(b0, b1, b2, b3, b4, b5, b6, b7)) == b0
    ensures Half(FromBits(b0, b1, b2, b3, b4, b5, b6, b7)) == FromBits(b1, b2, b3, b4, b5, b6, b7, false)
  {
  }

  lemma FourLow(b0: bool, b1: bool, b2: bool, b3: bool, b4: bool, b5: bool, b6: bool, b7: bool, n: nat)
    ensures LowBits(FromBits(b0, b1, b2, b3, b4, b5, b6, b7), n + 4)
         == [b0, b1, b2, b3] + LowBits(FromBits(b4, b5, b6, b7, false, false, false, false), n)
  {
    hide FromBits, LowBits;
    FromBitsLow(b0, b1, b2, b3, b4, b5, b6, b7, n + 3);
    FromBitsLow(b1, b2, b3, b4, b5, b6, b7, false, n + 2);
    FromBitsLow(b2, b3, b4, b5, b6, b7, false, false, n + 1);
    FromBitsLow(b3, b4, b5, b6, b7, false, false, false, n);
  }

  lemma EightLow(b0: bool, b1: bool, b2: bool, b3: bool, b4: bool, b5: bool, b6: bool, b7: bool)
    ensures LowBits(FromBits(b0, b1, b2, b3, b4, b5, b6, b7), 8) == [b0, b1, b2, b3, b4, b5, b6, b7]
  {
    hide FromBits, LowBits;
    FourLow(b0, b1, b2, b3, b4, b5, b6, b7, 4);
    FourLow(b4, b5, b6, b7, false, false, false, false, 0);
    NoneLeft(FromBits(false, false, false, false, false, false, false, false));
  }

  lemma WideBits(x: byte)
    ensures LowBits(Wide(x), 8) == ByteLowFirst(x)
  {
    hide FromBits, LowBits;
    EightLow(x % 2 == 1, x / 2 % 2 == 1, x / 4 % 2 == 1, x / 8 % 2 == 1,
             x / 16 % 2 == 1, x / 32 % 2 == 1, x / 64 % 2 == 1, x / 128 % 2 == 1);
  }

  /** The checksum is the reflected division: that of `Crc`, with every byte's lowest bit first and the register read
      from its low end. */
  lemma {:induction false} MusicDivides(bytes: seq<byte>, crc: bv16)
    ensures LowFirst(MusicAll(bytes, crc)) == DivideAll(LowFirst(crc), AllBits(bytes))
  {
    hide Turns8, LowFirst, ByteLowFirst, DivideAll, MusicAll, AllBits, Apart, Wide;
    MusicLast(bytes, crc);
    if bytes == [] {
      DivideNone(LowFirst(crc));
    } else {
      var n := |bytes| - 1;
      var before := MusicAll(bytes[..n], crc);
      MusicDivides(bytes[..n], crc);
      ByteDivides16(before, bytes[n]);
      DivideAllConcat(LowFirst(crc), AllBits(bytes[..n]), ByteLowFirst(bytes[n]));
    }
  }

  lemma MusicLast(bytes: seq<byte>, crc: bv16)
    ensures bytes == [] ==> MusicAll(bytes, crc) == crc && AllBits(bytes) == []
    ensures bytes != [] ==>
      var n := |bytes| - 1;
      && MusicAll(bytes, crc) == Turns8(Apart(MusicAll(bytes[..n], crc), Wide(bytes[n])))
      && AllBits(bytes) == AllBits(bytes[..n]) + ByteLowFirst(bytes[n])
  {
    hide Turns8, ByteLowFirst, Apart, Wide;
  }

  lemma DivideNone(reg: seq<bool>)
    requires |reg| == 16
    ensures DivideAll(reg, []) == reg
  {
  }

  lemma ByteDivides16(crc: bv16, x: byte)
    ensures LowFirst(Turns8(Apart(crc, Wide(x)))) == DivideAll(LowFirst(crc), ByteLowFirst(x))
  {
    hide Turns8, Turn, LowFirst, LowBits, DivideAll, Half, Low, Apart, Wide, ByteLowFirst;
    ByteSmall(x);
    WideBits(x);
    ByteHalves(Wide(x));
    TurnsDivide(crc, Wide(x), 8);
    Eight(Apart(crc, Wide(x)));
  }

  /** The byte with its bits the other way round. */
  function Mirror(x: byte): byte {
    ValueOfBound(ByteLowFirst(x));
    Pow2Small();
    ValueOf(ByteLowFirst(x))
  }

  function Mirrored(bytes: seq<byte>): seq<byte> {
    if bytes == [] then [] else Mirrored(bytes[..|bytes| - 1]) + [Mirror(bytes[|bytes| - 1])]
  }

  lemma {:induction false} BitsOfValue(b: seq<bool>)
    ensures BitsOf(ValueOf(b), |b|) == b
  {
    if b != [] {
      BitsOfValue(b[..|b| - 1]);
    }
  }

  lemma {:induction false} MirroredBits(bytes: seq<byte>)
    ensures BytesToBits(Mirrored(bytes)) == AllBits(bytes)
  {
    hide BitsOf, ByteLowFirst, ValueOf;
    if bytes != [] {
      var n := |bytes| - 1;
      MirroredBits(bytes[..n]);
      BitsOfValue(ByteLowFirst(bytes[n]));
      BytesToBitsAppend(Mirrored(bytes[..n]), Mirror(bytes[n]));
    }
  }

  /** It is the checksum of `Crc` over mirrored bytes, in a mirrored register. */
  lemma MirrorsCrc(bytes: seq<byte>, crc: bv16)
    ensures BitsOf(CrcAll(Mirrored(bytes), ValueOf(LowFirst(crc))), 16) == LowFirst(MusicAll(bytes, crc))
  {
    hide Turns8, LowFirst, BitsOf, BytesToBits, AllBits, DivideAll, MusicAll, CrcAll, Mirrored, ValueOf;
    MusicDivides(bytes, crc);
    MirroredBits(bytes);
    BitsOfValue(LowFirst(crc));
    CrcDivides(Mirrored(bytes), ValueOf(LowFirst(crc)));
  }

  lemma {:induction false} MusicConcat(a: seq<byte>, b: seq<byte>, crc: bv16)
    ensures MusicAll(a + b, crc) == MusicAll(b, MusicAll(a, crc))
  {
    hide Turns8, Apart, Wide;
    if b == [] {
      assert a + b == a;
    } else {
      MusicConcat(a, b[..|b| - 1], crc);
      assert (a + b)[..|a + b| - 1] == a + b[..|b| - 1];
    }
  }

  /** UpdateMusicCRC */
  method UpdateMusicCrc(crc: bv16, buffer: seq<byte>) returns (r: bv16)
    ensures r == MusicAll(buffer, crc)
  {
    hide Turns8, Apart, Wide;
    r := crc;
    for i := 0 to |buffer|
      invariant r == MusicAll(buffer[..i], crc)
    {
      assert buffer[..i + 1][..i] == buffer[..i];
      ByteSmall(buffer[i]);
      r := CrcUpdateLookup(Wide(buffer[i]), r);
    }
    assert buffer[..|buffer|] == buffer;
  }

  /** The part of copy_buffer that keeps account of the music: however the stream is cut into calls, checksum and length
      are those of all that has been handed out. */
  class Music {
    var nMusicCrc: bv16
    var nBytesWritten: nat
    /** All music bytes handed out. */
    ghost var music: seq<byte>

    constructor ()
      ensures Valid() && music == []
    {
      nMusicCrc, nBytesWritten, music := 0, 0, [];
    }

    ghost predicate Valid()
      reads this
    {
      nMusicCrc == MusicAll(music, 0) && nBytesWritten == |music|
    }

    method Copied(buffer: seq<byte>, mp3data: bool)
      requires Valid()
      modifies this
      ensures Valid() && music == old(music) + if mp3data then buffer else []
    {
      hide MusicAll;
      if mp3data {
        MusicConcat(music, buffer, 0);
        nMusicCrc := UpdateMusicCrc(nMusicCrc, buffer);
        if |buffer| > 0 {
          nBytesWritten := nBytesWritten + |buffer|;
        }
        music := music + buffer;
      }
    }
  }
}
