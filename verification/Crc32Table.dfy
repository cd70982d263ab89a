// The constant table of NetWork/CRC32.h and the proof that each of its 256
// entries is eight steps of the shift register it is meant to replace.
module Crc32Table {

  // The polynomial of RFC 1952, section 8, least significant bit first.
  const POLY: bv64 := 0xEDB88320

  // One clock of the shift register, with no input bit.
  function Shift(x: bv64): bv64 {
    if x & 1 == 1 then (x >> 1) ^ POLY else x >> 1
  }

  function Shift8(x: bv64): bv64 {
    Shift(Shift(Shift(Shift(Shift(Shift(Shift(Shift(x))))))))
  }

  // The table, eight entries a row and four rows a block.
  const ROW00: seq<bv64> :=
    [0x00000000, 0x77073096, 0xee0e612c, 0x990951ba, 0x076dc419, 0x706af48f, 0xe963a535, 0x9e6495a3]
  const ROW08: seq<bv64> :=
    [0x0edb8832, 0x79dcb8a4, 0xe0d5e91e, 0x97d2d988, 0x09b64c2b, 0x7eb17cbd, 0xe7b82d07, 0x90bf1d91]
  const ROW10: seq<bv64> :=
    [0x1db71064, 0x6ab020f2, 0xf3b97148, 0x84be41de, 0x1adad47d, 0x6ddde4eb, 0xf4d4b551, 0x83d385c7]
  const ROW18: seq<bv64> :=
    [0x136c9856, 0x646ba8c0, 0xfd62f97a, 0x8a65c9ec, 0x14015c4f, 0x63066cd9, 0xfa0f3d63, 0x8d080df5]
  const ROW20: seq<bv64> :=
    [0x3b6e20c8, 0x4c69105e, 0xd56041e4, 0xa2677172, 0x3c03e4d1, 0x4b04d447, 0xd20d85fd, 0xa50ab56b]
  const ROW28: seq<bv64> :=
    [0x35b5a8fa, 0x42b2986c, 0xdbbbc9d6, 0xacbcf940, 0x32d86ce3, 0x45df5c75, 0xdcd60dcf, 0xabd13d59]
  const ROW30: seq<bv64> :=
    [0x26d930ac, 0x51de003a, 0xc8d75180, 0xbfd06116, 0x21b4f4b5, 0x56b3c423, 0xcfba9599, 0xb8bda50f]
  const ROW38: seq<bv64> :=
    [0x2802b89e, 0x5f058808, 0xc60cd9b2, 0xb10be924, 0x2f6f7c87, 0x58684c11, 0xc1611dab, 0xb6662d3d]
  const ROW40: seq<bv64> :=
    [0x76dc4190, 0x01db7106, 0x98d220bc, 0xefd5102a, 0x71b18589, 0x06b6b51f, 0x9fbfe4a5, 0xe8b8d433]
  const ROW48: seq<bv64> :=
    [0x7807c9a2, 0x0f00f934, 0x9609a88e, 0xe10e9818, 0x7f6a0dbb, 0x086d3d2d, 0x91646c97, 0xe6635c01]
  const ROW50: seq<bv64> :=
    [0x6b6b51f4, 0x1c6c6162, 0x856530d8, 0xf262004e, 0x6c0695ed, 0x1b01a57b, 0x8208f4c1, 0xf50fc457]
  const ROW58: seq<bv64> :=
    [0x65b0d9c6, 0x12b7e950, 0x8bbeb8ea, 0xfcb9887c, 0x62dd1ddf, 0x15da2d49, 0x8cd37cf3, 0xfbd44c65]
  const ROW60: seq<bv64> :=
    [0x4db26158, 0x3ab551ce, 0xa3bc0074, 0xd4bb30e2, 0x4adfa541, 0x3dd895d7, 0xa4d1c46d, 0xd3d6f4fb]
  const ROW68: seq<bv64> :=
    [0x4369e96a, 0x346ed9fc, 0xad678846, 0xda60b8d0, 0x44042d73, 0x33031de5, 0xaa0a4c5f, 0xdd0d7cc9]
  const ROW70: seq<bv64> :=
    [0x5005713c, 0x270241aa, 0xbe0b1010, 0xc90c2086, 0x5768b525, 0x206f85b3, 0xb966d409, 0xce61e49f]
  const ROW78: seq<bv64> :=
    [0x5edef90e, 0x29d9c998, 0xb0d09822, 0xc7d7a8b4, 0x59b33d17, 0x2eb40d81, 0xb7bd5c3b, 0xc0ba6cad]
  const ROW80: seq<bv64> :=
    [0xedb88320, 0x9abfb3b6, 0x03b6e20c, 0x74b1d29a, 0xead54739, 0x9dd277af, 0x04db2615, 0x73dc1683]
  const ROW88: seq<bv64> :=
    [0xe3630b12, 0x94643b84, 0x0d6d6a3e, 0x7a6a5aa8, 0xe40ecf0b, 0x9309ff9d, 0x0a00ae27, 0x7d079eb1]
  const ROW90: seq<bv64> :=
    [0xf00f9344, 0x8708a3d2, 0x1e01f268, 0x6906c2fe, 0xf762575d, 0x806567cb, 0x196c3671, 0x6e6b06e7]
  const ROW98: seq<bv64> :=
    [0xfed41b76, 0x89d32be0, 0x10da7a5a, 0x67dd4acc, 0xf9b9df6f, 0x8ebeeff9, 0x17b7be43, 0x60b08ed5]
  const ROWA0: seq<bv64> :=
    [0xd6d6a3e8, 0xa1d1937e, 0x38d8c2c4, 0x4fdff252, 0xd1bb67f1, 0xa6bc5767, 0x3fb506dd, 0x48b2364b]
  const ROWA8: seq<bv64> :=
    [0xd80d2bda, 0xaf0a1b4c, 0x36034af6, 0x41047a60, 0xdf60efc3, 0xa867df55, 0x316e8eef, 0x4669be79]
  const ROWB0: seq<bv64> :=
    [0xcb61b38c, 0xbc66831a, 0x256fd2a0, 0x5268e236, 0xcc0c7795, 0xbb0b4703, 0x220216b9, 0x5505262f]
  const ROWB8: seq<bv64> :=
    [0xc5ba3bbe, 0xb2bd0b28, 0x2bb45a92, 0x5cb36a04, 0xc2d7ffa7, 0xb5d0cf31, 0x2cd99e8b, 0x5bdeae1d]
  const ROWC0: seq<bv64> :=
    [0x9b64c2b0, 0xec63f226, 0x756aa39c, 0x026d930a, 0x9c0906a9, 0xeb0e363f, 0x72076785, 0x05005713]
  const ROWC8: seq<bv64> :=
    [0x95bf4a82, 0xe2b87a14, 0x7bb12bae, 0x0cb61b38, 0x92d28e9b, 0xe5d5be0d, 0x7cdcefb7, 0x0bdbdf21]
  const ROWD0: seq<bv64> :=
    [0x86d3d2d4, 0xf1d4e242, 0x68ddb3f8, 0x1fda836e, 0x81be16cd, 0xf6b9265b, 0x6fb077e1, 0x18b74777]
  const ROWD8: seq<bv64> :=
    [0x88085ae6, 0xff0f6a70, 0x66063bca, 0x11010b5c, 0x8f659eff, 0xf862ae69, 0x616bffd3, 0x166ccf45]
  const ROWE0: seq<bv64> :=
    [0xa00ae278, 0xd70dd2ee, 0x4e048354, 0x3903b3c2, 0xa7672661, 0xd06016f7, 0x4969474d, 0x3e6e77db]
  const ROWE8: seq<bv64> :=
    [0xaed16a4a, 0xd9d65adc, 0x40df0b66, 0x37d83bf0, 0xa9bcae53, 0xdebb9ec5, 0x47b2cf7f, 0x30b5ffe9]
  const ROWF0: seq<bv64> :=
    [0xbdbdf21c, 0xcabac28a, 0x53b39330, 0x24b4a3a6, 0xbad03605, 0xcdd70693, 0x54de5729, 0x23d967bf]
  const ROWF8: seq<bv64> :=
    [0xb3667a2e, 0xc4614ab8, 0x5d681b02, 0x2a6f2b94, 0xb40bbe37, 0xc30c8ea1, 0x5a05df1b, 0x2d02ef8d]

  const BLOCK00 := (ROW00 + ROW08) + (ROW10 + ROW18)
  const BLOCK20 := (ROW20 + ROW28) + (ROW30 + ROW38)
  const BLOCK40 := (ROW40 + ROW48) + (ROW50 + ROW58)
  const BLOCK60 := (ROW60 + ROW68) + (ROW70 + ROW78)
  const BLOCK80 := (ROW80 + ROW88) + (ROW90 + ROW98)
  const BLOCKA0 := (ROWA0 + ROWA8) + (ROWB0 + ROWB8)
  const BLOCKC0 := (ROWC0 + ROWC8) + (ROWD0 + ROWD8)
  const BLOCKE0 := (ROWE0 + ROWE8) + (ROWF0 + ROWF8)

  const CRC_TABLE: seq<bv64> :=
    ((BLOCK00 + BLOCK20) + (BLOCK40 + BLOCK60)) + ((BLOCK80 + BLOCKA0) + (BLOCKC0 + BLOCKE0))

  lemma {:induction false} Row00(i: bv8) requires i <= 0x03 ensures ROW00[i as int] == Shift8(i as bv64) {}
  lemma {:induction false} Row04(i: bv8) requires 0x04 <= i <= 0x07 ensures ROW00[i as int] == Shift8(i as bv64) {}
  lemma {:induction false} Row08(i: bv8) requires 0x08 <= i <= 0x0F ensures ROW08[i as int - 8] == Shift8(i as bv64) {}
  lemma {:induction false} Row10(i: bv8) requires 0x10 <= i <= 0x17 ensures ROW10[i as int - 16] == Shift8(i as bv64) {}
  lemma {:induction false} Row18(i: bv8) requires 0x18 <= i <= 0x1F ensures ROW18[i as int - 24] == Shift8(i as bv64) {}
  lemma {:induction false} Row20(i: bv8) requires 0x20 <= i <= 0x27 ensures ROW20[i as int - 32] == Shift8(i as bv64) {}
  lemma {:induction false} Row28(i: bv8) requires 0x28 <= i <= 0x2F ensures ROW28[i as int - 40] == Shift8(i as bv64) {}
  lemma {:induction false} Row30(i: bv8) requires 0x30 <= i <= 0x37 ensures ROW30[i as int - 48] == Shift8(i as bv64) {}
  lemma {:induction false} Row38(i: bv8) requires 0x38 <= i <= 0x3F ensures ROW38[i as int - 56] == Shift8(i as bv64) {}
  lemma {:induction false} Row40(i: bv8) requires 0x40 <= i <= 0x47 ensures ROW40[i as int - 64] == Shift8(i as bv64) {}
  lemma {:induction false} Row48(i: bv8) requires 0x48 <= i <= 0x4F ensures ROW48[i as int - 72] == Shift8(i as bv64) {}
  lemma {:induction false} Row50(i: bv8) requires 0x50 <= i <= 0x57 ensures ROW50[i as int - 80] == Shift8(i as bv64) {}
  lemma {:induction false} Row58(i: bv8) requires 0x58 <= i <= 0x5F ensures ROW58[i as int - 88] == Shift8(i as bv64) {}
  lemma {:induction false} Row60(i: bv8) requires 0x60 <= i <= 0x67 ensures ROW60[i as int - 96] == Shift8(i as bv64) {}
  lemma {:induction false} Row68(i: bv8) requires 0x68 <= i <= 0x6F ensures ROW68[i as int - 104] == Shift8(i as bv64) {}
  lemma {:induction false} Row70(i: bv8) requires 0x70 <= i <= 0x77 ensures ROW70[i as int - 112] == Shift8(i as bv64) {}
  lemma {:induction false} Row78(i: bv8) requires 0x78 <= i <= 0x7F ensures ROW78[i as int - 120] == Shift8(i as bv64) {}
  lemma {:induction false} Row80(i: bv8) requires 0x80 <= i <= 0x87 ensures ROW80[i as int - 128] == Shift8(i as bv64) {}
  lemma {:induction false} Row88(i: bv8) requires 0x88 <= i <= 0x8F ensures ROW88[i as int - 136] == Shift8(i as bv64) {}
  lemma {:induction false} Row90(i: bv8) requires 0x90 <= i <= 0x97 ensures ROW90[i as int - 144] == Shift8(i as bv64) {}
  lemma {:induction false} Row98(i: bv8) requires 0x98 <= i <= 0x9F ensures ROW98[i as int - 152] == Shift8(i as bv64) {}
  lemma {:induction false} RowA0(i: bv8) requires 0xA0 <= i <= 0xA7 ensures ROWA0[i as int - 160] == Shift8(i as bv64) {}
  lemma {:induction false} RowA8(i: bv8) requires 0xA8 <= i <= 0xAF ensures ROWA8[i as int - 168] == Shift8(i as bv64) {}
  lemma {:induction false} RowB0(i: bv8) requires 0xB0 <= i <= 0xB7 ensures ROWB0[i as int - 176] == Shift8(i as bv64) {}
  lemma {:induction false} RowB8(i: bv8) requires 0xB8 <= i <= 0xBF ensures ROWB8[i as int - 184] == Shift8(i as bv64) {}
  lemma {:induction false} RowC0(i: bv8) requires 0xC0 <= i <= 0xC7 ensures ROWC0[i as int - 192] == Shift8(i as bv64) {}
  lemma {:induction false} RowC8(i: bv8) requires 0xC8 <= i <= 0xCF ensures ROWC8[i as int - 200] == Shift8(i as bv64) {}
  lemma {:induction false} RowD0(i: bv8) requires 0xD0 <= i <= 0xD7 ensures ROWD0[i as int - 208] == Shift8(i as bv64) {}
  lemma {:induction false} RowD8(i: bv8) requires 0xD8 <= i <= 0xDF ensures ROWD8[i as int - 216] == Shift8(i as bv64) {}
  lemma {:induction false} RowE0(i: bv8) requires 0xE0 <= i <= 0xE7 ensures ROWE0[i as int - 224] == Shift8(i as bv64) {}
  lemma {:induction false} RowE8(i: bv8) requires 0xE8 <= i <= 0xEF ensures ROWE8[i as int - 232] == Shift8(i as bv64) {}
  lemma {:induction false} RowF0(i: bv8) requires 0xF0 <= i <= 0xF7 ensures ROWF0[i as int - 240] == Shift8(i as bv64) {}
  lemma {:induction false} RowF8(i: bv8) requires 0xF8 <= i <= 0xFF ensures ROWF8[i as int - 248] == Shift8(i as bv64) {}

  lemma {:induction false} Block00(i: bv8)
    requires i <= 0x1F
    ensures |BLOCK00| == 32 && BLOCK00[i as int] == Shift8(i as bv64)
  {
    if i <= 0x03 { Row00(i); } else if i <= 0x07 { Row04(i); } else if i <= 0x0F { Row08(i); } else if i <= 0x17 { Row10(i); } else { Row18(i); }
  }

  lemma {:induction false} Block20(i: bv8)
    requires 0x20 <= i <= 0x3F
    ensures |BLOCK20| == 32 && BLOCK20[i as int - 32] == Shift8(i as bv64)
  {
    if i <= 0x27 { Row20(i); } else if i <= 0x2F { Row28(i); } else if i <= 0x37 { Row30(i); } else { Row38(i); }
  }

  lemma {:induction false} Block40(i: bv8)
    requires 0x40 <= i <= 0x5F
    ensures |BLOCK40| == 32 && BLOCK40[i as int - 64] == Shift8(i as bv64)
  {
    if i <= 0x47 { Row40(i); } else if i <= 0x4F { Row48(i); } else if i <= 0x57 { Row50(i); } else { Row58(i); }
  }

  lemma {:induction false} Block60(i: bv8)
    requires 0x60 <= i <= 0x7F
    ensures |BLOCK60| == 32 && BLOCK60[i as int - 96] == Shift8(i as bv64)
  {
    if i <= 0x67 { Row60(i); } else if i <= 0x6F { Row68(i); } else if i <= 0x77 { Row70(i); } else { Row78(i); }
  }

  lemma {:induction false} Block80(i: bv8)
    requires 0x80 <= i <= 0x9F
    ensures |BLOCK80| == 32 && BLOCK80[i as int - 128] == Shift8(i as bv64)
  {
    if i <= 0x87 { Row80(i); } else if i <= 0x8F { Row88(i); } else if i <= 0x97 { Row90(i); } else { Row98(i); }
  }

  lemma {:induction false} BlockA0(i: bv8)
    requires 0xA0 <= i <= 0xBF
    ensures |BLOCKA0| == 32 && BLOCKA0[i as int - 160] == Shift8(i as bv64)
  {
    if i <= 0xA7 { RowA0(i); } else if i <= 0xAF { RowA8(i); } else if i <= 0xB7 { RowB0(i); } else { RowB8(i); }
  }

  lemma {:induction false} BlockC0(i: bv8)
    requires 0xC0 <= i <= 0xDF
    ensures |BLOCKC0| == 32 && BLOCKC0[i as int - 192] == Shift8(i as bv64)
  {
    if i <= 0xC7 { RowC0(i); } else if i <= 0xCF { RowC8(i); } else if i <= 0xD7 { RowD0(i); } else { RowD8(i); }
  }

  lemma {:induction false} BlockE0(i: bv8)
    requires 0xE0 <= i <= 0xFF
    ensures |BLOCKE0| == 32 && BLOCKE0[i as int - 224] == Shift8(i as bv64)
  {
    if i <= 0xE7 { RowE0(i); } else if i <= 0xEF { RowE8(i); } else if i <= 0xF7 { RowF0(i); } else { RowF8(i); }
  }

  // Every entry of the table is eight register clocks of its own index.
  lemma {:induction false} TableEntry(i: bv8)
    ensures |CRC_TABLE| == 256
    ensures CRC_TABLE[i as int] == Shift8(i as bv64)
  {
    BlockLengths();
    if i <= 0x1F {
      Block00(i);
    } else if i <= 0x3F {
      Block20(i);
    } else if i <= 0x5F {
      Block40(i);
    } else if i <= 0x7F {
      Block60(i);
    } else if i <= 0x9F {
      Block80(i);
    } else if i <= 0xBF {
      BlockA0(i);
    } else if i <= 0xDF {
      BlockC0(i);
    } else {
      BlockE0(i);
    }
  }

  lemma {:induction false} BlockLengths()
    ensures |BLOCK00| == 32
    ensures |BLOCK20| == 32
    ensures |BLOCK40| == 32
    ensures |BLOCK60| == 32
    ensures |BLOCK80| == 32
    ensures |BLOCKA0| == 32
    ensures |BLOCKC0| == 32
    ensures |BLOCKE0| == 32
  {
  }
}
