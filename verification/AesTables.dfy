/** The two substitution tables of AES and the byte field they are defined over
    (next-frontend/app/lib/aesEcb.ts, sections 4.2 and 5.1.1 of FIPS 197). */
module AesTables {

  // The forward table, one function per row of sixteen entries
  function Sbox0(l: bv8): bv8 {
    if l == 0x0 then 0x63 else if l == 0x1 then 0x7c else if l == 0x2 then 0x77 else if l == 0x3 then 0x7b else
    if l == 0x4 then 0xf2 else if l == 0x5 then 0x6b else if l == 0x6 then 0x6f else if l == 0x7 then 0xc5 else
    if l == 0x8 then 0x30 else if l == 0x9 then 0x01 else if l == 0xa then 0x67 else if l == 0xb then 0x2b else
    if l == 0xc then 0xfe else if l == 0xd then 0xd7 else if l == 0xe then 0xab else 0x76
  }

  function Sbox1(l: bv8): bv8 {
    if l == 0x0 then 0xca else if l == 0x1 then 0x82 else if l == 0x2 then 0xc9 else if l == 0x3 then 0x7d else
    if l == 0x4 then 0xfa else if l == 0x5 then 0x59 else if l == 0x6 then 0x47 else if l == 0x7 then 0xf0 else
    if l == 0x8 then 0xad else if l == 0x9 then 0xd4 else if l == 0xa then 0xa2 else if l == 0xb then 0xaf else
    if l == 0xc then 0x9c else if l == 0xd then 0xa4 else if l == 0xe then 0x72 else 0xc0
  }

  function Sbox2(l: bv8): bv8 {
    if l == 0x0 then 0xb7 else if l == 0x1 then 0xfd else if l == 0x2 then 0x93 else if l == 0x3 then 0x26 else
    if l == 0x4 then 0x36 else if l == 0x5 then 0x3f else if l == 0x6 then 0xf7 else if l == 0x7 then 0xcc else
    if l == 0x8 then 0x34 else if l == 0x9 then 0xa5 else if l == 0xa then 0xe5 else if l == 0xb then 0xf1 else
    if l == 0xc then 0x71 else if l == 0xd then 0xd8 else if l == 0xe then 0x31 else 0x15
  }

  function Sbox3(l: bv8): bv8 {
    if l == 0x0 then 0x04 else if l == 0x1 then 0xc7 else if l == 0x2 then 0x23 else if l == 0x3 then 0xc3 else
    if l == 0x4 then 0x18 else if l == 0x5 then 0x96 else if l == 0x6 then 0x05 else if l == 0x7 then 0x9a else
    if l == 0x8 then 0x07 else if l == 0x9 then 0x12 else if l == 0xa then 0x80 else if l == 0xb then 0xe2 else
    if l == 0xc then 0xeb else if l == 0xd then 0x27 else if l == 0xe then 0xb2 else 0x75
  }

  function Sbox4(l: bv8): bv8 {
    if l == 0x0 then 0x09 else if l == 0x1 then 0x83 else if l == 0x2 then 0x2c else if l == 0x3 then 0x1a else
    if l == 0x4 then 0x1b else if l == 0x5 then 0x6e else if l == 0x6 then 0x5a else if l == 0x7 then 0xa0 else
    if l == 0x8 then 0x52 else if l == 0x9 then 0x3b else if l == 0xa then 0xd6 else if l == 0xb then 0xb3 else
    if l == 0xc then 0x29 else if l == 0xd then 0xe3 else if l == 0xe then 0x2f else 0x84
  }

  function Sbox5(l: bv8): bv8 {
    if l == 0x0 then 0x53 else if l == 0x1 then 0xd1 else if l == 0x2 then 0x00 else if l == 0x3 then 0xed else
    if l == 0x4 then 0x20 else if l == 0x5 then 0xfc else if l == 0x6 then 0xb1 else if l == 0x7 then 0x5b else
    if l == 0x8 then 0x6a else if l == 0x9 then 0xcb else if l == 0xa then 0xbe else if l == 0xb then 0x39 else
    if l == 0xc then 0x4a else if l == 0xd then 0x4c else if l == 0xe then 0x58 else 0xcf
  }

  function Sbox6(l: bv8): bv8 {
    if l == 0x0 then 0xd0 else if l == 0x1 then 0xef else if l == 0x2 then 0xaa else if l == 0x3 then 0xfb else
    if l == 0x4 then 0x43 else if l == 0x5 then 0x4d else if l == 0x6 then 0x33 else if l == 0x7 then 0x85 else
    if l == 0x8 then 0x45 else if l == 0x9 then 0xf9 else if l == 0xa then 0x02 else if l == 0xb then 0x7f else
    if l == 0xc then 0x50 else if l == 0xd then 0x3c else if l == 0xe then 0x9f else 0xa8
  }

  function Sbox7(l: bv8): bv8 {
    if l == 0x0 then 0x51 else if l == 0x1 then 0xa3 else if l == 0x2 then 0x40 else if l == 0x3 then 0x8f else
    if l == 0x4 then 0x92 else if l == 0x5 then 0x9d else if l == 0x6 then 0x38 else if l == 0x7 then 0xf5 else
    if l == 0x8 then 0xbc else if l == 0x9 then 0xb6 else if l == 0xa then 0xda else if l == 0xb then 0x21 else
    if l == 0xc then 0x10 else if l == 0xd then 0xff else if l == 0xe then 0xf3 else 0xd2
  }

  function Sbox8(l: bv8): bv8 {
    if l == 0x0 then 0xcd else if l == 0x1 then 0x0c else if l == 0x2 then 0x13 else if l == 0x3 then 0xec else
    if l == 0x4 then 0x5f else if l == 0x5 then 0x97 else if l == 0x6 then 0x44 else if l == 0x7 then 0x17 else
    if l == 0x8 then 0xc4 else if l == 0x9 then 0xa7 else if l == 0xa then 0x7e else if l == 0xb then 0x3d else
    if l == 0xc then 0x64 else if l == 0xd then 0x5d else if l == 0xe then 0x19 else 0x73
  }

  function Sbox9(l: bv8): bv8 {
    if l == 0x0 then 0x60 else if l == 0x1 then 0x81 else if l == 0x2 then 0x4f else if l == 0x3 then 0xdc else
    if l == 0x4 then 0x22 else if l == 0x5 then 0x2a else if l == 0x6 then 0x90 else if l == 0x7 then 0x88 else
    if l == 0x8 then 0x46 else if l == 0x9 then 0xee else if l == 0xa then 0xb8 else if l == 0xb then 0x14 else
    if l == 0xc then 0xde else if l == 0xd then 0x5e else if l == 0xe then 0x0b else 0xdb
  }

  function Sboxa(l: bv8): bv8 {
    if l == 0x0 then 0xe0 else if l == 0x1 then 0x32 else if l == 0x2 then 0x3a else if l == 0x3 then 0x0a else
    if l == 0x4 then 0x49 else if l == 0x5 then 0x06 else if l == 0x6 then 0x24 else if l == 0x7 then 0x5c else
    if l == 0x8 then 0xc2 else if l == 0x9 then 0xd3 else if l == 0xa then 0xac else if l == 0xb then 0x62 else
    if l == 0xc then 0x91 else if l == 0xd then 0x95 else if l == 0xe then 0xe4 else 0x79
  }

  function Sboxb(l: bv8): bv8 {
    if l == 0x0 then 0xe7 else if l == 0x1 then 0xc8 else if l == 0x2 then 0x37 else if l == 0x3 then 0x6d else
    if l == 0x4 then 0x8d else if l == 0x5 then 0xd5 else if l == 0x6 then 0x4e else if l == 0x7 then 0xa9 else
    if l == 0x8 then 0x6c else if l == 0x9 then 0x56 else if l == 0xa then 0xf4 else if l == 0xb then 0xea else
    if l == 0xc then 0x65 else if l == 0xd then 0x7a else if l == 0xe then 0xae else 0x08
  }

  function Sboxc(l: bv8): bv8 {
    if l == 0x0 then 0xba else if l == 0x1 then 0x78 else if l == 0x2 then 0x25 else if l == 0x3 then 0x2e else
    if l == 0x4 then 0x1c else if l == 0x5 then 0xa6 else if l == 0x6 then 0xb4 else if l == 0x7 then 0xc6 else
    if l == 0x8 then 0xe8 else if l == 0x9 then 0xdd else if l == 0xa then 0x74 else if l == 0xb then 0x1f else
    if l == 0xc then 0x4b else if l == 0xd then 0xbd else if l == 0xe then 0x8b else 0x8a
  }

  function Sboxd(l: bv8): bv8 {
    if l == 0x0 then 0x70 else if l == 0x1 then 0x3e else if l == 0x2 then 0xb5 else if l == 0x3 then 0x66 else
    if l == 0x4 then 0x48 else if l == 0x5 then 0x03 else if l == 0x6 then 0xf6 else if l == 0x7 then 0x0e else
    if l == 0x8 then 0x61 else if l == 0x9 then 0x35 else if l == 0xa then 0x57 else if l == 0xb then 0xb9 else
    if l == 0xc then 0x86 else if l == 0xd then 0xc1 else if l == 0xe then 0x1d else 0x9e
  }

  function Sboxe(l: bv8): bv8 {
    if l == 0x0 then 0xe1 else if l == 0x1 then 0xf8 else if l == 0x2 then 0x98 else if l == 0x3 then 0x11 else
    if l == 0x4 then 0x69 else if l == 0x5 then 0xd9 else if l == 0x6 then 0x8e else if l == 0x7 then 0x94 else
    if l == 0x8 then 0x9b else if l == 0x9 then 0x1e else if l == 0xa then 0x87 else if l == 0xb then 0xe9 else
    if l == 0xc then 0xce else if l == 0xd then 0x55 else if l == 0xe then 0x28 else 0xdf
  }

  function Sboxf(l: bv8): bv8 {
    if l == 0x0 then 0x8c else if l == 0x1 then 0xa1 else if l == 0x2 then 0x89 else if l == 0x3 then 0x0d else
    if l == 0x4 then 0xbf else if l == 0x5 then 0xe6 else if l == 0x6 then 0x42 else if l == 0x7 then 0x68 else
    if l == 0x8 then 0x41 else if l == 0x9 then 0x99 else if l == 0xa then 0x2d else if l == 0xb then 0x0f else
    if l == 0xc then 0xb0 else if l == 0xd then 0x54 else if l == 0xe then 0xbb else 0x16
  }

  function Sbox(x: bv8): bv8 {
    var h, l := x >> 4, x & 0x0f;
    if h == 0x0 then Sbox0(l) else if h == 0x1 then Sbox1(l) else if h == 0x2 then Sbox2(l) else if h == 0x3 then Sbox3(l) else
    if h == 0x4 then Sbox4(l) else if h == 0x5 then Sbox5(l) else if h == 0x6 then Sbox6(l) else if h == 0x7 then Sbox7(l) else
    if h == 0x8 then Sbox8(l) else if h == 0x9 then Sbox9(l) else if h == 0xa then Sboxa(l) else if h == 0xb then Sboxb(l) else
    if h == 0xc then Sboxc(l) else if h == 0xd then Sboxd(l) else if h == 0xe then Sboxe(l) else Sboxf(l)
  }

  // The inverse table
  function InvSbox0(l: bv8): bv8 {
    if l == 0x0 then 0x52 else if l == 0x1 then 0x09 else if l == 0x2 then 0x6a else if l == 0x3 then 0xd5 else
    if l == 0x4 then 0x30 else if l == 0x5 then 0x36 else if l == 0x6 then 0xa5 else if l == 0x7 then 0x38 else
    if l == 0x8 then 0xbf else if l == 0x9 then 0x40 else if l == 0xa then 0xa3 else if l == 0xb then 0x9e else
    if l == 0xc then 0x81 else if l == 0xd then 0xf3 else if l == 0xe then 0xd7 else 0xfb
  }

  function InvSbox1(l: bv8): bv8 {
    if l == 0x0 then 0x7c else if l == 0x1 then 0xe3 else if l == 0x2 then 0x39 else if l == 0x3 then 0x82 else
    if l == 0x4 then 0x9b else if l == 0x5 then 0x2f else if l == 0x6 then 0xff else if l == 0x7 then 0x87 else
    if l == 0x8 then 0x34 else if l == 0x9 then 0x8e else if l == 0xa then 0x43 else if l == 0xb then 0x44 else
    if l == 0xc then 0xc4 else if l == 0xd then 0xde else if l == 0xe then 0xe9 else 0xcb
  }

  function InvSbox2(l: bv8): bv8 {
    if l == 0x0 then 0x54 else if l == 0x1 then 0x7b else if l == 0x2 then 0x94 else if l == 0x3 then 0x32 else
    if l == 0x4 then 0xa6 else if l == 0x5 then 0xc2 else if l == 0x6 then 0x23 else if l == 0x7 then 0x3d else
    if l == 0x8 then 0xee else if l == 0x9 then 0x4c else if l == 0xa then 0x95 else if l == 0xb then 0x0b else
    if l == 0xc then 0x42 else if l == 0xd then 0xfa else if l == 0xe then 0xc3 else 0x4e
  }

  function InvSbox3(l: bv8): bv8 {
    if l == 0x0 then 0x08 else if l == 0x1 then 0x2e else if l == 0x2 then 0xa1 else if l == 0x3 then 0x66 else
    if l == 0x4 then 0x28 else if l == 0x5 then 0xd9 else if l == 0x6 then 0x24 else if l == 0x7 then 0xb2 else
    if l == 0x8 then 0x76 else if l == 0x9 then 0x5b else if l == 0xa then 0xa2 else if l == 0xb then 0x49 else
    if l == 0xc then 0x6d else if l == 0xd then 0x8b else if l == 0xe then 0xd1 else 0x25
  }

  function InvSbox4(l: bv8): bv8 {
    if l == 0x0 then 0x72 else if l == 0x1 then 0xf8 else if l == 0x2 then 0xf6 else if l == 0x3 then 0x64 else
    if l == 0x4 then 0x86 else if l == 0x5 then 0x68 else if l == 0x6 then 0x98 else if l == 0x7 then 0x16 else
    if l == 0x8 then 0xd4 else if l == 0x9 then 0xa4 else if l == 0xa then 0x5c else if l == 0xb then 0xcc else
    if l == 0xc then 0x5d else if l == 0xd then 0x65 else if l == 0xe then 0xb6 else 0x92
  }

  function InvSbox5(l: bv8): bv8 {
    if l == 0x0 then 0x6c else if l == 0x1 then 0x70 else if l == 0x2 then 0x48 else if l == 0x3 then 0x50 else
    if l == 0x4 then 0xfd else if l == 0x5 then 0xed else if l == 0x6 then 0xb9 else if l == 0x7 then 0xda else
    if l == 0x8 then 0x5e else if l == 0x9 then 0x15 else if l == 0xa then 0x46 else if l == 0xb then 0x57 else
    if l == 0xc then 0xa7 else if l == 0xd then 0x8d else if l == 0xe then 0x9d else 0x84
  }

  function InvSbox6(l: bv8): bv8 {
    if l == 0x0 then 0x90 else if l == 0x1 then 0xd8 else if l == 0x2 then 0xab else if l == 0x3 then 0x00 else
    if l == 0x4 then 0x8c else if l == 0x5 then 0xbc else if l == 0x6 then 0xd3 else if l == 0x7 then 0x0a else
    if l == 0x8 then 0xf7 else if l == 0x9 then 0xe4 else if l == 0xa then 0x58 else if l == 0xb then 0x05 else
    if l == 0xc then 0xb8 else if l == 0xd then 0xb3 else if l == 0xe then 0x45 else 0x06
  }

  function InvSbox7(l: bv8): bv8 {
    if l == 0x0 then 0xd0 else if l == 0x1 then 0x2c else if l == 0x2 then 0x1e else if l == 0x3 then 0x8f else
    if l == 0x4 then 0xca else if l == 0x5 then 0x3f else if l == 0x6 then 0x0f else if l == 0x7 then 0x02 else
    if l == 0x8 then 0xc1 else if l == 0x9 then 0xaf else if l == 0xa then 0xbd else if l == 0xb then 0x03 else
    if l == 0xc then 0x01 else if l == 0xd then 0x13 else if l == 0xe then 0x8a else 0x6b
  }

  function InvSbox8(l: bv8): bv8 {
    if l == 0x0 then 0x3a else if l == 0x1 then 0x91 else if l == 0x2 then 0x11 else if l == 0x3 then 0x41 else
    if l == 0x4 then 0x4f else if l == 0x5 then 0x67 else if l == 0x6 then 0xdc else if l == 0x7 then 0xea else
    if l == 0x8 then 0x97 else if l == 0x9 then 0xf2 else if l == 0xa then 0xcf else if l == 0xb then 0xce else
    if l == 0xc then 0xf0 else if l == 0xd then 0xb4 else if l == 0xe then 0xe6 else 0x73
  }

  function InvSbox9(l: bv8): bv8 {
    if l == 0x0 then 0x96 else if l == 0x1 then 0xac else if l == 0x2 then 0x74 else if l == 0x3 then 0x22 else
    if l == 0x4 then 0xe7 else if l == 0x5 then 0xad else if l == 0x6 then 0x35 else if l == 0x7 then 0x85 else
    if l == 0x8 then 0xe2 else if l == 0x9 then 0xf9 else if l == 0xa then 0x37 else if l == 0xb then 0xe8 else
    if l == 0xc then 0x1c else if l == 0xd then 0x75 else if l == 0xe then 0xdf else 0x6e
  }

  function InvSboxa(l: bv8): bv8 {
    if l == 0x0 then 0x47 else if l == 0x1 then 0xf1 else if l == 0x2 then 0x1a else if l == 0x3 then 0x71 else
    if l == 0x4 then 0x1d else if l == 0x5 then 0x29 else if l == 0x6 then 0xc5 else if l == 0x7 then 0x89 else
    if l == 0x8 then 0x6f else if l == 0x9 then 0xb7 else if l == 0xa then 0x62 else if l == 0xb then 0x0e else
    if l == 0xc then 0xaa else if l == 0xd then 0x18 else if l == 0xe then 0xbe else 0x1b
  }

  function InvSboxb(l: bv8): bv8 {
    if l == 0x0 then 0xfc else if l == 0x1 then 0x56 else if l == 0x2 then 0x3e else if l == 0x3 then 0x4b else
    if l == 0x4 then 0xc6 else if l == 0x5 then 0xd2 else if l == 0x6 then 0x79 else if l == 0x7 then 0x20 else
    if l == 0x8 then 0x9a else if l == 0x9 then 0xdb else if l == 0xa then 0xc0 else if l == 0xb then 0xfe else
    if l == 0xc then 0x78 else if l == 0xd then 0xcd else if l == 0xe then 0x5a else 0xf4
  }

  function InvSboxc(l: bv8): bv8 {
    if l == 0x0 then 0x1f else if l == 0x1 then 0xdd else if l == 0x2 then 0xa8 else if l == 0x3 then 0x33 else
    if l == 0x4 then 0x88 else if l == 0x5 then 0x07 else if l == 0x6 then 0xc7 else if l == 0x7 then 0x31 else
    if l == 0x8 then 0xb1 else if l == 0x9 then 0x12 else if l == 0xa then 0x10 else if l == 0xb then 0x59 else
    if l == 0xc then 0x27 else if l == 0xd then 0x80 else if l == 0xe then 0xec else 0x5f
  }

  function InvSboxd(l: bv8): bv8 {
    if l == 0x0 then 0x60 else if l == 0x1 then 0x51 else if l == 0x2 then 0x7f else if l == 0x3 then 0xa9 else
    if l == 0x4 then 0x19 else if l == 0x5 then 0xb5 else if l == 0x6 then 0x4a else if l == 0x7 then 0x0d else
    if l == 0x8 then 0x2d else if l == 0x9 then 0xe5 else if l == 0xa then 0x7a else if l == 0xb then 0x9f else
    if l == 0xc then 0x93 else if l == 0xd then 0xc9 else if l == 0xe then 0x9c else 0xef
  }

  function InvSboxe(l: bv8): bv8 {
    if l == 0x0 then 0xa0 else if l == 0x1 then 0xe0 else if l == 0x2 then 0x3b else if l == 0x3 then 0x4d else
    if l == 0x4 then 0xae else if l == 0x5 then 0x2a else if l == 0x6 then 0xf5 else if l == 0x7 then 0xb0 else
    if l == 0x8 then 0xc8 else if l == 0x9 then 0xeb else if l == 0xa then 0xbb else if l == 0xb then 0x3c else
    if l == 0xc then 0x83 else if l == 0xd then 0x53 else if l == 0xe then 0x99 else 0x61
  }

  function InvSboxf(l: bv8): bv8 {
    if l == 0x0 then 0x17 else if l == 0x1 then 0x2b else if l == 0x2 then 0x04 else if l == 0x3 then 0x7e else
    if l == 0x4 then 0xba else if l == 0x5 then 0x77 else if l == 0x6 then 0xd6 else if l == 0x7 then 0x26 else
    if l == 0x8 then 0xe1 else if l == 0x9 then 0x69 else if l == 0xa then 0x14 else if l == 0xb then 0x63 else
    if l == 0xc then 0x55 else if l == 0xd then 0x21 else if l == 0xe then 0x0c else 0x7d
  }

  function InvSbox(x: bv8): bv8 {
    var h, l := x >> 4, x & 0x0f;
    if h == 0x0 then InvSbox0(l) else if h == 0x1 then InvSbox1(l) else if h == 0x2 then InvSbox2(l) else if h == 0x3 then InvSbox3(l) else
    if h == 0x4 then InvSbox4(l) else if h == 0x5 then InvSbox5(l) else if h == 0x6 then InvSbox6(l) else if h == 0x7 then InvSbox7(l) else
    if h == 0x8 then InvSbox8(l) else if h == 0x9 then InvSbox9(l) else if h == 0xa then InvSboxa(l) else if h == 0xb then InvSboxb(l) else
    if h == 0xc then InvSboxc(l) else if h == 0xd then InvSboxd(l) else if h == 0xe then InvSboxe(l) else InvSboxf(l)
  }

  lemma InvSboxOfSbox(x: bv8)
    ensures InvSbox(Sbox(x)) == x
  {
  }

  lemma SboxOfInvSbox(y: bv8)
    ensures Sbox(InvSbox(y)) == y
  {
  }

  // ---- the field GF(2^8) modulo x^8 + x^4 + x^3 + x + 1 ----

  function Xtime(x: bv8): bv8 {
    (x << 1) ^ (if x & 0x80 != 0 then 0x1b else 0x00)
  }

  // ---- sums of bytes, kept symbolic so that they are rearranged by these laws ----

  ghost function Xor(a: bv8, b: bv8): bv8 {
    a ^ b
  }

  lemma XorComm(a: bv8, b: bv8)
    ensures Xor(a, b) == Xor(b, a)
  {
  }

  lemma XorAssoc(a: bv8, b: bv8, c: bv8)
    ensures Xor(Xor(a, b), c) == Xor(a, Xor(b, c))
  {
  }

  lemma XorZero(a: bv8)
    ensures Xor(a, 0) == a && Xor(0, a) == a && Xor(a, a) == 0
  {
  }

  lemma XorPairs(a: bv8, b: bv8, c: bv8, d: bv8)
    ensures Xor(Xor(a, b), Xor(c, d)) == Xor(Xor(a, c), Xor(b, d))
  {
    XorAssoc(a, b, Xor(c, d));
    XorAssoc(b, c, d);
    XorComm(b, c);
    XorAssoc(c, b, d);
    XorAssoc(a, c, Xor(b, d));
  }

  lemma XtimeShifts(x: bv8)
    ensures Xtime(x) == (x << 1) ^ (x >> 7) ^ ((x >> 7) << 1) ^ ((x >> 7) << 3) ^ ((x >> 7) << 4)
  {
  }

  lemma XtimeXor(a: bv8, b: bv8)
    ensures Xtime(Xor(a, b)) == Xor(Xtime(a), Xtime(b))
  {
    XtimeShifts(a);
    XtimeShifts(b);
    XtimeShifts(a ^ b);
  }

  // The product of x and the low n bits of the polynomial p
  function MulLow(x: bv8, p: bv8, n: bv8): bv8
    decreases n
  {
    if n == 0 then 0
    else (if p & 1 != 0 then x else 0) ^ MulLow(Xtime(x), p >> 1, n - 1)
  }

  function Mul(a: bv8, b: bv8): bv8 {
    MulLow(a, b, 8)
  }

  lemma MulLowStep(x: bv8, p: bv8, n: bv8)
    requires n != 0
    ensures var rest := MulLow(Xtime(x), p >> 1, n - 1);
            MulLow(x, p, n) == if p & 1 != 0 then Xor(x, rest) else rest
  {
  }

  /** Multiplication distributes over sums. */
  lemma {:induction false} MulLowXor(a: bv8, b: bv8, p: bv8, n: bv8)
    ensures MulLow(Xor(a, b), p, n) == Xor(MulLow(a, p, n), MulLow(b, p, n))
    decreases n
  {
    if n != 0 {
      XtimeXor(a, b);
      MulLowXor(Xtime(a), Xtime(b), p >> 1, n - 1);
      MulLowStep(a, p, n);
      MulLowStep(b, p, n);
      MulLowStep(Xor(a, b), p, n);
      if p & 1 != 0 {
        XorPairs(a, b, MulLow(Xtime(a), p >> 1, n - 1), MulLow(Xtime(b), p >> 1, n - 1));
      }
    }
  }

  /** The multiplication loop computes the field product. */
  method Gmul(a: bv8, poly: bv8) returns (result: bv8)
    ensures result == Mul(a, poly)
  {
    hide Goal, Mul, Xtime;
    result := 0;
    var x := a;
    var i: bv8 := 0;
    ghost var p: bv8, n: bv8 := poly, 8;  // the bits still to come
    GoalEntry(a, poly);
    while i < 8
      invariant i <= 8 && n == 8 - i && p == poly >> i
      invariant Goal(result, x, p, n) == Mul(a, poly)
    {
      Peel(result, x, p, n);
      NextBit(poly, i, p, n);
      if poly & (1 << i) != 0 { result := result ^ x; }
      x := Xtime(x);
      i := i + 1;
      p, n := p >> 1, n - 1;
    }
    GoalExit(result, x, p);
  }

  // What the loop will have computed when it ends
  ghost function Goal(result: bv8, x: bv8, p: bv8, n: bv8): bv8 {
    Xor(result, MulLow(x, p, n))
  }

  lemma GoalEntry(a: bv8, poly: bv8)
    ensures Goal(0, a, poly, 8) == Mul(a, poly)
  {
    XorZero(Mul(a, poly));
  }

  lemma GoalExit(result: bv8, x: bv8, p: bv8)
    ensures Goal(result, x, p, 0) == result
  {
    XorZero(result);
  }

  lemma Peel(result: bv8, x: bv8, p: bv8, n: bv8)
    requires n != 0
    ensures Goal(result, x, p, n) == Goal(if p & 1 != 0 then Xor(result, x) else result, Xtime(x), p >> 1, n - 1)
  {
    MulLowStep(x, p, n);
    XorAssoc(result, x, MulLow(Xtime(x), p >> 1, n - 1));
  }

  lemma NextBit(poly: bv8, i: bv8, p: bv8, n: bv8)
    requires i < 8 && n == 8 - i && p == poly >> i
    ensures n - 1 == 8 - (i + 1) && p >> 1 == poly >> (i + 1)
    ensures p & 1 != 0 <==> poly & (1 << i) != 0
  {
  }

  // ---- the substitution of section 5.1.1 of FIPS 197: inversion in the field, then an affine map ----

  function RotateLeft(x: bv8, n: bv8): bv8
    requires n <= 8
  {
    (x << n) | (x >> (8 - n))
  }

  function Affine(x: bv8): bv8 {
    x ^ RotateLeft(x, 1) ^ RotateLeft(x, 2) ^ RotateLeft(x, 3) ^ RotateLeft(x, 4) ^ 0x63
  }

  // The byte the affine map turned into this table entry
  function FieldInverse(x: bv8): bv8 {
    var y := Sbox(x);
    RotateLeft(y, 1) ^ RotateLeft(y, 3) ^ RotateLeft(y, 6) ^ 0x05
  }

  lemma InverseProduct00(x: bv8)
    requires x != 0 && x & 0xc0 == 0
    ensures Mul(x, FieldInverse(x)) == 1
  {
  }

  lemma InverseProduct40(x: bv8)
    requires x & 0xc0 == 0x40
    ensures Mul(x, FieldInverse(x)) == 1
  {
  }

  lemma InverseProduct80(x: bv8)
    requires x & 0xc0 == 0x80
    ensures Mul(x, FieldInverse(x)) == 1
  {
  }

  lemma InverseProductC0(x: bv8)
    requires x & 0xf0 == 0xc0
    ensures Mul(x, FieldInverse(x)) == 1
  {
  }

  lemma InverseProductD0(x: bv8)
    requires x & 0xf0 == 0xd0
    ensures Mul(x, FieldInverse(x)) == 1
  {
  }

  lemma InverseProductE0(x: bv8)
    requires x & 0xe0 == 0xe0
    ensures Mul(x, FieldInverse(x)) == 1
  {
  }

  lemma AffineOfInverse(y: bv8)
    ensures Affine(RotateLeft(y, 1) ^ RotateLeft(y, 3) ^ RotateLeft(y, 6) ^ 0x05) == y
  {
  }

  /** The table is the FIPS 197 substitution: the affine image of the multiplicative inverse,
      with zero standing for its own inverse. */
  lemma SboxIsFieldInversion(x: bv8)
    ensures Sbox(x) == Affine(FieldInverse(x))
    ensures x == 0 ==> FieldInverse(x) == 0
    ensures x != 0 ==> Mul(x, FieldInverse(x)) == 1
  {
    AffineOfInverse(Sbox(x));
    if x & 0xe0 == 0xe0 {
      InverseProductE0(x);
    } else if x & 0xf0 == 0xd0 {
      InverseProductD0(x);
    } else if x & 0xf0 == 0xc0 {
      InverseProductC0(x);
    } else if x & 0xc0 == 0x80 {
      InverseProduct80(x);
    } else if x & 0xc0 == 0x40 {
      InverseProduct40(x);
    } else if x != 0 {
      InverseProduct00(x);
    }
  }

  /** The start-up loop fills the inverse table, wherever the buffer started. */
  method BuildInvSbox(inv: array<bv8>)
    requires inv.Length == 256
    modifies inv
    ensures forall y: bv8 :: inv[y as int] == InvSbox(y)
  {
    hide Sbox, InvSbox;
    var i: bv16 := 0;
    while i < 256
      invariant i <= 256
      invariant forall y: bv8 :: Filled(inv[..], i, y)
    {
      ghost var was := inv[..];
      inv[Sbox(i as bv8) as int] := i as bv8;
      ghost var j := i + 1;
      forall y: bv8
        ensures Filled(inv[..], j, y)
      {
        FillNext(was, i, y);
      }
      i := i + 1;
    }
    forall y: bv8
      ensures inv[y as int] == InvSbox(y)
    {
      assert Filled(inv[..], 256, y);
    }
  }

  // After i rounds every entry whose value is below i is in place.
  ghost predicate Filled(inv: seq<bv8>, i: bv16, y: bv8)
    requires |inv| == 256
  {
    InvSbox(y) as bv16 < i ==> inv[y as int] == InvSbox(y)
  }

  lemma FillNext(inv: seq<bv8>, i: bv16, y: bv8)
    requires |inv| == 256 && i < 256 && Filled(inv, i, y)
    ensures Filled(inv[Sbox(i as bv8) as int := i as bv8], i + 1, y)
  {
    hide Sbox, InvSbox;
    BytesBelow(InvSbox(y), i);
    FillEntry(inv, i as bv8, y);
  }

  lemma FillEntry(inv: seq<bv8>, x: bv8, y: bv8)
    requires |inv| == 256
    requires InvSbox(y) < x ==> inv[y as int] == InvSbox(y)
    ensures InvSbox(y) <= x ==> inv[Sbox(x) as int := x][y as int] == InvSbox(y)
  {
    hide Sbox, InvSbox;
    InvSboxOfSbox(x);
    SboxOfInvSbox(y);
    if y as int == Sbox(x) as int {
      SameIndex(y, Sbox(x));
    } else if InvSbox(y) <= x {
      AtMostOther(InvSbox(y), x);
    }
  }

  lemma AtMostOther(a: bv8, b: bv8)
    requires a <= b && a != b
    ensures a < b
  {
  }

  lemma BytesBelow(b: bv8, i: bv16)
    requires i < 256
    ensures b as bv16 < i <==> b < i as bv8
    ensures b as bv16 < i + 1 <==> b <= i as bv8
  {
  }

  lemma SameIndex(x: bv8, y: bv8)
    requires x as int == y as int
    ensures x == y
  {
  }
}
