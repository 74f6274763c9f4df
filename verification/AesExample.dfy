/** The worked example of FIPS 197, appendix B, with the round keys of appendix A.1: one block under one key, round by
    round (next-frontend/app/lib/aesEcb.ts). */
module AesExample {
  import opened AesTables
  import opened Aes
  import opened AesCipher

  const KEY: seq<bv8> := [0x2b, 0x7e, 0x15, 0x16, 0x28, 0xae, 0xd2, 0xa6, 0xab, 0xf7, 0x15, 0x88, 0x09, 0xcf, 0x4f, 0x3c]
  const PLAIN: seq<bv8> := [0x32, 0x43, 0xf6, 0xa8, 0x88, 0x5a, 0x30, 0x8d, 0x31, 0x31, 0x98, 0xa2, 0xe0, 0x37, 0x07, 0x34]
  const ENCIPHERED: seq<bv8> := [0x39, 0x25, 0x84, 0x1d, 0x02, 0xdc, 0x09, 0xfb, 0xdc, 0x11, 0x85, 0x97, 0x19, 0x6a, 0x0b, 0x32]

  // ---- the key of each round ----

  ghost function Key0(): Block {
    Block(Column(0x2b, 0x7e, 0x15, 0x16), Column(0x28, 0xae, 0xd2, 0xa6),
          Column(0xab, 0xf7, 0x15, 0x88), Column(0x09, 0xcf, 0x4f, 0x3c))
  }

  ghost function Key1(): Block {
    Block(Column(0xa0, 0xfa, 0xfe, 0x17), Column(0x88, 0x54, 0x2c, 0xb1),
          Column(0x23, 0xa3, 0x39, 0x39), Column(0x2a, 0x6c, 0x76, 0x05))
  }

  ghost function Key2(): Block {
    Block(Column(0xf2, 0xc2, 0x95, 0xf2), Column(0x7a, 0x96, 0xb9, 0x43),
          Column(0x59, 0x35, 0x80, 0x7a), Column(0x73, 0x59, 0xf6, 0x7f))
  }

  ghost function Key3(): Block {
    Block(Column(0x3d, 0x80, 0x47, 0x7d), Column(0x47, 0x16, 0xfe, 0x3e),
          Column(0x1e, 0x23, 0x7e, 0x44), Column(0x6d, 0x7a, 0x88, 0x3b))
  }

  ghost function Key4(): Block {
    Block(Column(0xef, 0x44, 0xa5, 0x41), Column(0xa8, 0x52, 0x5b, 0x7f),
          Column(0xb6, 0x71, 0x25, 0x3b), Column(0xdb, 0x0b, 0xad, 0x00))
  }

  ghost function Key5(): Block {
    Block(Column(0xd4, 0xd1, 0xc6, 0xf8), Column(0x7c, 0x83, 0x9d, 0x87),
          Column(0xca, 0xf2, 0xb8, 0xbc), Column(0x11, 0xf9, 0x15, 0xbc))
  }

  ghost function Key6(): Block {
    Block(Column(0x6d, 0x88, 0xa3, 0x7a), Column(0x11, 0x0b, 0x3e, 0xfd),
          Column(0xdb, 0xf9, 0x86, 0x41), Column(0xca, 0x00, 0x93, 0xfd))
  }

  ghost function Key7(): Block {
    Block(Column(0x4e, 0x54, 0xf7, 0x0e), Column(0x5f, 0x5f, 0xc9, 0xf3),
          Column(0x84, 0xa6, 0x4f, 0xb2), Column(0x4e, 0xa6, 0xdc, 0x4f))
  }

  ghost function Key8(): Block {
    Block(Column(0xea, 0xd2, 0x73, 0x21), Column(0xb5, 0x8d, 0xba, 0xd2),
          Column(0x31, 0x2b, 0xf5, 0x60), Column(0x7f, 0x8d, 0x29, 0x2f))
  }

  ghost function Key9(): Block {
    Block(Column(0xac, 0x77, 0x66, 0xf3), Column(0x19, 0xfa, 0xdc, 0x21),
          Column(0x28, 0xd1, 0x29, 0x41), Column(0x57, 0x5c, 0x00, 0x6e))
  }

  ghost function Key10(): Block {
    Block(Column(0xd0, 0x14, 0xf9, 0xa8), Column(0xc9, 0xee, 0x25, 0x89),
          Column(0xe1, 0x3f, 0x0c, 0xc8), Column(0xb6, 0x63, 0x0c, 0xa6))
  }

  ghost function KeyOf(round: nat): Block {
    match round
    case 0 => Key0()
    case 1 => Key1()
    case 2 => Key2()
    case 3 => Key3()
    case 4 => Key4()
    case 5 => Key5()
    case 6 => Key6()
    case 7 => Key7()
    case 8 => Key8()
    case 9 => Key9()
    case _ => Key10()
  }

  // The round key that follows this one
  ghost function NextKey(k: Block, rcon: bv8): Block {
    var c0 := XorColumn(k.c0, XorColumn(SubColumn(RotWord(k.c3), Sbox), Column(rcon, 0, 0, 0)));
    var c1 := XorColumn(k.c1, c0);
    var c2 := XorColumn(k.c2, c1);
    Block(c0, c1, c2, XorColumn(k.c3, c2))
  }

  lemma RoundKeyNext(key: seq<bv8>, round: nat)
    requires |key| == 16
    ensures RoundKey(key, round + 1) == NextKey(RoundKey(key, round), PowerOfX(round))
  {
    hide XorColumn, SubColumn, KeyWord, PowerOfX;
    NextWord(key, 4 * round + 4);
    NextWord(key, 4 * round + 5);
    NextWord(key, 4 * round + 6);
    NextWord(key, 4 * round + 7);
  }

  lemma FirstKey()
    ensures RoundKey(KEY, 0) == Key0()
  {
  }

  lemma KeyStep0()
    ensures NextKey(Key0(), 0x01) == Key1()
  {
  }

  lemma KeyStep1()
    ensures NextKey(Key1(), 0x02) == Key2()
  {
  }

  lemma KeyStep2()
    ensures NextKey(Key2(), 0x04) == Key3()
  {
  }

  lemma KeyStep3()
    ensures NextKey(Key3(), 0x08) == Key4()
  {
  }

  lemma KeyStep4()
    ensures NextKey(Key4(), 0x10) == Key5()
  {
  }

  lemma KeyStep5()
    ensures NextKey(Key5(), 0x20) == Key6()
  {
  }

  lemma KeyStep6()
    ensures NextKey(Key6(), 0x40) == Key7()
  {
  }

  lemma KeyStep7()
    ensures NextKey(Key7(), 0x80) == Key8()
  {
  }

  lemma KeyStep8()
    ensures NextKey(Key8(), 0x1b) == Key9()
  {
  }

  lemma KeyStep9()
    ensures NextKey(Key9(), 0x36) == Key10()
  {
  }

  lemma {:induction false} KeyIs(round: nat)
    requires round <= 10
    ensures RoundKey(KEY, round) == KeyOf(round)
  {
    hide NextKey, RoundKey, PowerOfX;
    hide Key0, Key1, Key2, Key3, Key4, Key5, Key6, Key7, Key8, Key9, Key10;
    if round == 0 {
      FirstKey();
    } else {
      KeyIs(round - 1);
      RoundKeyNext(KEY, round - 1);
      RconIsPowerOfX(round - 1);
      match round
      case 1 => KeyStep0();
      case 2 => KeyStep1();
      case 3 => KeyStep2();
      case 4 => KeyStep3();
      case 5 => KeyStep4();
      case 6 => KeyStep5();
      case 7 => KeyStep6();
      case 8 => KeyStep7();
      case 9 => KeyStep8();
      case _ => KeyStep9();
    }
  }

  // ---- the state after each round, and before the columns of the next are mixed ----

  ghost function State0(): Block {
    Block(Column(0x19, 0x3d, 0xe3, 0xbe), Column(0xa0, 0xf4, 0xe2, 0x2b),
          Column(0x9a, 0xc6, 0x8d, 0x2a), Column(0xe9, 0xf8, 0x48, 0x08))
  }

  ghost function State1(): Block {
    Block(Column(0xa4, 0x9c, 0x7f, 0xf2), Column(0x68, 0x9f, 0x35, 0x2b),
          Column(0x6b, 0x5b, 0xea, 0x43), Column(0x02, 0x6a, 0x50, 0x49))
  }

  ghost function State2(): Block {
    Block(Column(0xaa, 0x8f, 0x5f, 0x03), Column(0x61, 0xdd, 0xe3, 0xef),
          Column(0x82, 0xd2, 0x4a, 0xd2), Column(0x68, 0x32, 0x46, 0x9a))
  }

  ghost function State3(): Block {
    Block(Column(0x48, 0x6c, 0x4e, 0xee), Column(0x67, 0x1d, 0x9d, 0x0d),
          Column(0x4d, 0xe3, 0xb1, 0x38), Column(0xd6, 0x5f, 0x58, 0xe7))
  }

  ghost function State4(): Block {
    Block(Column(0xe0, 0x92, 0x7f, 0xe8), Column(0xc8, 0x63, 0x63, 0xc0),
          Column(0xd9, 0xb1, 0x35, 0x50), Column(0x85, 0xb8, 0xbe, 0x01))
  }

  ghost function State5(): Block {
    Block(Column(0xf1, 0x00, 0x6f, 0x55), Column(0xc1, 0x92, 0x4c, 0xef),
          Column(0x7c, 0xc8, 0x8b, 0x32), Column(0x5d, 0xb5, 0xd5, 0x0c))
  }

  ghost function State6(): Block {
    Block(Column(0x26, 0x0e, 0x2e, 0x17), Column(0x3d, 0x41, 0xb7, 0x7d),
          Column(0xe8, 0x64, 0x72, 0xa9), Column(0xfd, 0xd2, 0x8b, 0x25))
  }

  ghost function State7(): Block {
    Block(Column(0x5a, 0x41, 0x42, 0xb1), Column(0x19, 0x49, 0xdc, 0x1f),
          Column(0xa3, 0xe0, 0x19, 0x65), Column(0x7a, 0x8c, 0x04, 0x0c))
  }

  ghost function State8(): Block {
    Block(Column(0xea, 0x83, 0x5c, 0xf0), Column(0x04, 0x45, 0x33, 0x2d),
          Column(0x65, 0x5d, 0x98, 0xad), Column(0x85, 0x96, 0xb0, 0xc5))
  }

  ghost function State9(): Block {
    Block(Column(0xeb, 0x40, 0xf2, 0x1e), Column(0x59, 0x2e, 0x38, 0x84),
          Column(0x8b, 0xa1, 0x13, 0xe7), Column(0x1b, 0xc3, 0x42, 0xd2))
  }

  ghost function StateAfter(round: nat): Block {
    match round
    case 0 => State0()
    case 1 => State1()
    case 2 => State2()
    case 3 => State3()
    case 4 => State4()
    case 5 => State5()
    case 6 => State6()
    case 7 => State7()
    case 8 => State8()
    case _ => State9()
  }

  ghost function Moved0(): Block {
    Block(Column(0xd4, 0xbf, 0x5d, 0x30), Column(0xe0, 0xb4, 0x52, 0xae),
          Column(0xb8, 0x41, 0x11, 0xf1), Column(0x1e, 0x27, 0x98, 0xe5))
  }

  ghost function Moved1(): Block {
    Block(Column(0x49, 0xdb, 0x87, 0x3b), Column(0x45, 0x39, 0x53, 0x89),
          Column(0x7f, 0x02, 0xd2, 0xf1), Column(0x77, 0xde, 0x96, 0x1a))
  }

  ghost function Moved2(): Block {
    Block(Column(0xac, 0xc1, 0xd6, 0xb8), Column(0xef, 0xb5, 0x5a, 0x7b),
          Column(0x13, 0x23, 0xcf, 0xdf), Column(0x45, 0x73, 0x11, 0xb5))
  }

  ghost function Moved3(): Block {
    Block(Column(0x52, 0xa4, 0xc8, 0x94), Column(0x85, 0x11, 0x6a, 0x28),
          Column(0xe3, 0xcf, 0x2f, 0xd7), Column(0xf6, 0x50, 0x5e, 0x07))
  }

  ghost function Moved4(): Block {
    Block(Column(0xe1, 0xfb, 0x96, 0x7c), Column(0xe8, 0xc8, 0xae, 0x9b),
          Column(0x35, 0x6c, 0xd2, 0xba), Column(0x97, 0x4f, 0xfb, 0x53))
  }

  ghost function Moved5(): Block {
    Block(Column(0xa1, 0x4f, 0x3d, 0xfe), Column(0x78, 0xe8, 0x03, 0xfc),
          Column(0x10, 0xd5, 0xa8, 0xdf), Column(0x4c, 0x63, 0x29, 0x23))
  }

  ghost function Moved6(): Block {
    Block(Column(0xf7, 0x83, 0x40, 0x3f), Column(0x27, 0x43, 0x3d, 0xf0),
          Column(0x9b, 0xb5, 0x31, 0xff), Column(0x54, 0xab, 0xa9, 0xd3))
  }

  ghost function Moved7(): Block {
    Block(Column(0xbe, 0x3b, 0xd4, 0xfe), Column(0xd4, 0xe1, 0xf2, 0xc8),
          Column(0x0a, 0x64, 0x2c, 0xc0), Column(0xda, 0x83, 0x86, 0x4d))
  }

  ghost function Moved8(): Block {
    Block(Column(0x87, 0x6e, 0x46, 0xa6), Column(0xf2, 0x4c, 0xe7, 0x8c),
          Column(0x4d, 0x90, 0x4a, 0xd8), Column(0x97, 0xec, 0xc3, 0x95))
  }

  ghost function Moved9(): Block {
    Block(Column(0xe9, 0x31, 0x7d, 0xb5), Column(0xcb, 0x32, 0x2c, 0x72),
          Column(0x3d, 0x2e, 0x89, 0x5f), Column(0xaf, 0x09, 0x07, 0x94))
  }

  ghost function NextState(s: Block, k: Block): Block {
    AddKey(MixColumnsOf(ShiftRowsOf(SubBytesOf(s))), k)
  }

  // Mixing a column takes one doubling a byte.
  ghost function MixedByDoubling(x: Column): Column {
    Column(Xor4(Xtime(x.a), Xor(x.b, Xtime(x.b)), x.c, x.d), Xor4(Xtime(x.b), Xor(x.c, Xtime(x.c)), x.d, x.a),
           Xor4(Xtime(x.c), Xor(x.d, Xtime(x.d)), x.a, x.b), Xor4(Xtime(x.d), Xor(x.a, Xtime(x.a)), x.b, x.c))
  }

  lemma MixByteIsDoubling(a: bv8, b: bv8, c: bv8, d: bv8)
    ensures MixByte(a, b, c, d) == Xor4(Xtime(a), Xor(b, Xtime(b)), c, d)
  {
    hide Xtime, Xor, Xor4, Mul;
    SmallFactors(a);
    SmallFactors(b);
    SmallFactors(c);
    SmallFactors(d);
  }

  lemma MixIsDoubling(x: Column)
    ensures MixColumn(x) == MixedByDoubling(x)
  {
    hide Xtime, MixByte, Xor4, Xor;
    MixByteIsDoubling(x.a, x.b, x.c, x.d);
    MixByteIsDoubling(x.b, x.c, x.d, x.a);
    MixByteIsDoubling(x.c, x.d, x.a, x.b);
    MixByteIsDoubling(x.d, x.a, x.b, x.c);
  }

  lemma Substitutes0a()
    ensures Sbox(0x19) == 0xd4 && Sbox(0x3d) == 0x27 && Sbox(0xe3) == 0x11 && Sbox(0xbe) == 0xae
    ensures Sbox(0xa0) == 0xe0 && Sbox(0xf4) == 0xbf && Sbox(0xe2) == 0x98 && Sbox(0x2b) == 0xf1
  {
  }

  lemma Substitutes0b()
    ensures Sbox(0x9a) == 0xb8 && Sbox(0xc6) == 0xb4 && Sbox(0x8d) == 0x5d && Sbox(0x2a) == 0xe5
    ensures Sbox(0xe9) == 0x1e && Sbox(0xf8) == 0x41 && Sbox(0x48) == 0x52 && Sbox(0x08) == 0x30
  {
  }

  lemma MoveStep0()
    ensures ShiftRowsOf(SubBytesOf(State0())) == Moved0()
  {
    hide Sbox;
    Substitutes0a();
    Substitutes0b();
  }

  lemma Substitutes1a()
    ensures Sbox(0xa4) == 0x49 && Sbox(0x9c) == 0xde && Sbox(0x7f) == 0xd2 && Sbox(0xf2) == 0x89
    ensures Sbox(0x68) == 0x45 && Sbox(0x9f) == 0xdb && Sbox(0x35) == 0x96 && Sbox(0x2b) == 0xf1
  {
  }

  lemma Substitutes1b()
    ensures Sbox(0x6b) == 0x7f && Sbox(0x5b) == 0x39 && Sbox(0xea) == 0x87 && Sbox(0x43) == 0x1a
    ensures Sbox(0x02) == 0x77 && Sbox(0x6a) == 0x02 && Sbox(0x50) == 0x53 && Sbox(0x49) == 0x3b
  {
  }

  lemma MoveStep1()
    ensures ShiftRowsOf(SubBytesOf(State1())) == Moved1()
  {
    hide Sbox;
    Substitutes1a();
    Substitutes1b();
  }

  lemma Substitutes2a()
    ensures Sbox(0xaa) == 0xac && Sbox(0x8f) == 0x73 && Sbox(0x5f) == 0xcf && Sbox(0x03) == 0x7b
    ensures Sbox(0x61) == 0xef && Sbox(0xdd) == 0xc1 && Sbox(0xe3) == 0x11 && Sbox(0xef) == 0xdf
  {
  }

  lemma Substitutes2b()
    ensures Sbox(0x82) == 0x13 && Sbox(0xd2) == 0xb5 && Sbox(0x4a) == 0xd6 && Sbox(0xd2) == 0xb5
    ensures Sbox(0x68) == 0x45 && Sbox(0x32) == 0x23 && Sbox(0x46) == 0x5a && Sbox(0x9a) == 0xb8
  {
  }

  lemma MoveStep2()
    ensures ShiftRowsOf(SubBytesOf(State2())) == Moved2()
  {
    hide Sbox;
    Substitutes2a();
    Substitutes2b();
  }

  lemma Substitutes3a()
    ensures Sbox(0x48) == 0x52 && Sbox(0x6c) == 0x50 && Sbox(0x4e) == 0x2f && Sbox(0xee) == 0x28
    ensures Sbox(0x67) == 0x85 && Sbox(0x1d) == 0xa4 && Sbox(0x9d) == 0x5e && Sbox(0x0d) == 0xd7
  {
  }

  lemma Substitutes3b()
    ensures Sbox(0x4d) == 0xe3 && Sbox(0xe3) == 0x11 && Sbox(0xb1) == 0xc8 && Sbox(0x38) == 0x07
  {
  }

  lemma Substitutes3c()
    ensures Sbox(0xd6) == 0xf6 && Sbox(0x5f) == 0xcf && Sbox(0x58) == 0x6a && Sbox(0xe7) == 0x94
  {
  }

  lemma MoveStep3()
    ensures ShiftRowsOf(SubBytesOf(State3())) == Moved3()
  {
    hide Sbox;
    Substitutes3a();
    Substitutes3b();
    Substitutes3c();
  }

  lemma Substitutes4a()
    ensures Sbox(0xe0) == 0xe1 && Sbox(0x92) == 0x4f && Sbox(0x7f) == 0xd2 && Sbox(0xe8) == 0x9b
    ensures Sbox(0xc8) == 0xe8 && Sbox(0x63) == 0xfb && Sbox(0x63) == 0xfb && Sbox(0xc0) == 0xba
  {
  }

  lemma Substitutes4b()
    ensures Sbox(0xd9) == 0x35 && Sbox(0xb1) == 0xc8 && Sbox(0x35) == 0x96 && Sbox(0x50) == 0x53
    ensures Sbox(0x85) == 0x97 && Sbox(0xb8) == 0x6c && Sbox(0xbe) == 0xae && Sbox(0x01) == 0x7c
  {
  }

  lemma MoveStep4()
    ensures ShiftRowsOf(SubBytesOf(State4())) == Moved4()
  {
    hide Sbox;
    Substitutes4a();
    Substitutes4b();
  }

  lemma Substitutes5a()
    ensures Sbox(0xf1) == 0xa1 && Sbox(0x00) == 0x63 && Sbox(0x6f) == 0xa8 && Sbox(0x55) == 0xfc
    ensures Sbox(0xc1) == 0x78 && Sbox(0x92) == 0x4f && Sbox(0x4c) == 0x29 && Sbox(0xef) == 0xdf
  {
  }

  lemma Substitutes5b()
    ensures Sbox(0x7c) == 0x10 && Sbox(0xc8) == 0xe8 && Sbox(0x8b) == 0x3d && Sbox(0x32) == 0x23
    ensures Sbox(0x5d) == 0x4c && Sbox(0xb5) == 0xd5 && Sbox(0xd5) == 0x03 && Sbox(0x0c) == 0xfe
  {
  }

  lemma MoveStep5()
    ensures ShiftRowsOf(SubBytesOf(State5())) == Moved5()
  {
    hide Sbox;
    Substitutes5a();
    Substitutes5b();
  }

  lemma Substitutes6a()
    ensures Sbox(0x26) == 0xf7 && Sbox(0x0e) == 0xab && Sbox(0x2e) == 0x31 && Sbox(0x17) == 0xf0
    ensures Sbox(0x3d) == 0x27 && Sbox(0x41) == 0x83 && Sbox(0xb7) == 0xa9 && Sbox(0x7d) == 0xff
  {
  }

  lemma Substitutes6b()
    ensures Sbox(0xe8) == 0x9b && Sbox(0x64) == 0x43 && Sbox(0x72) == 0x40 && Sbox(0xa9) == 0xd3
  {
  }

  lemma Substitutes6c()
    ensures Sbox(0xfd) == 0x54 && Sbox(0xd2) == 0xb5 && Sbox(0x8b) == 0x3d && Sbox(0x25) == 0x3f
  {
  }

  lemma MoveStep6()
    ensures ShiftRowsOf(SubBytesOf(State6())) == Moved6()
  {
    hide Sbox;
    Substitutes6a();
    Substitutes6b();
    Substitutes6c();
  }

  lemma Substitutes7a()
    ensures Sbox(0x5a) == 0xbe && Sbox(0x41) == 0x83 && Sbox(0x42) == 0x2c && Sbox(0xb1) == 0xc8
    ensures Sbox(0x19) == 0xd4 && Sbox(0x49) == 0x3b && Sbox(0xdc) == 0x86 && Sbox(0x1f) == 0xc0
  {
  }

  lemma Substitutes7b()
    ensures Sbox(0xa3) == 0x0a && Sbox(0xe0) == 0xe1 && Sbox(0x19) == 0xd4 && Sbox(0x65) == 0x4d
    ensures Sbox(0x7a) == 0xda && Sbox(0x8c) == 0x64 && Sbox(0x04) == 0xf2 && Sbox(0x0c) == 0xfe
  {
  }

  lemma MoveStep7()
    ensures ShiftRowsOf(SubBytesOf(State7())) == Moved7()
  {
    hide Sbox;
    Substitutes7a();
    Substitutes7b();
  }

  lemma Substitutes8a()
    ensures Sbox(0xea) == 0x87 && Sbox(0x83) == 0xec && Sbox(0x5c) == 0x4a && Sbox(0xf0) == 0x8c
    ensures Sbox(0x04) == 0xf2 && Sbox(0x45) == 0x6e && Sbox(0x33) == 0xc3 && Sbox(0x2d) == 0xd8
  {
  }

  lemma Substitutes8b()
    ensures Sbox(0x65) == 0x4d && Sbox(0x5d) == 0x4c && Sbox(0x98) == 0x46 && Sbox(0xad) == 0x95
    ensures Sbox(0x85) == 0x97 && Sbox(0x96) == 0x90 && Sbox(0xb0) == 0xe7 && Sbox(0xc5) == 0xa6
  {
  }

  lemma MoveStep8()
    ensures ShiftRowsOf(SubBytesOf(State8())) == Moved8()
  {
    hide Sbox;
    Substitutes8a();
    Substitutes8b();
  }

  lemma Substitutes9a()
    ensures Sbox(0xeb) == 0xe9 && Sbox(0x40) == 0x09 && Sbox(0xf2) == 0x89 && Sbox(0x1e) == 0x72
    ensures Sbox(0x59) == 0xcb && Sbox(0x2e) == 0x31 && Sbox(0x38) == 0x07 && Sbox(0x84) == 0x5f
  {
  }

  lemma Substitutes9b()
    ensures Sbox(0x8b) == 0x3d && Sbox(0xa1) == 0x32 && Sbox(0x13) == 0x7d && Sbox(0xe7) == 0x94
    ensures Sbox(0x1b) == 0xaf && Sbox(0xc3) == 0x2e && Sbox(0x42) == 0x2c && Sbox(0xd2) == 0xb5
  {
  }

  lemma MoveStep9()
    ensures ShiftRowsOf(SubBytesOf(State9())) == Moved9()
  {
    hide Sbox;
    Substitutes9a();
    Substitutes9b();
  }

  lemma StateStep1()
    ensures NextState(State0(), Key1()) == State1()
  {
    hide Mul, SubBytesOf, ShiftRowsOf, MixColumn;
    MoveStep0();
    MixIsDoubling(Moved0().c0);
    MixIsDoubling(Moved0().c1);
    MixIsDoubling(Moved0().c2);
    MixIsDoubling(Moved0().c3);
  }

  lemma StateStep2()
    ensures NextState(State1(), Key2()) == State2()
  {
    hide Mul, SubBytesOf, ShiftRowsOf, MixColumn;
    MoveStep1();
    MixIsDoubling(Moved1().c0);
    MixIsDoubling(Moved1().c1);
    MixIsDoubling(Moved1().c2);
    MixIsDoubling(Moved1().c3);
  }

  lemma StateStep3()
    ensures NextState(State2(), Key3()) == State3()
  {
    hide Mul, SubBytesOf, ShiftRowsOf, MixColumn;
    MoveStep2();
    MixIsDoubling(Moved2().c0);
    MixIsDoubling(Moved2().c1);
    MixIsDoubling(Moved2().c2);
    MixIsDoubling(Moved2().c3);
  }

  lemma StateStep4()
    ensures NextState(State3(), Key4()) == State4()
  {
    hide Mul, SubBytesOf, ShiftRowsOf, MixColumn;
    MoveStep3();
    MixIsDoubling(Moved3().c0);
    MixIsDoubling(Moved3().c1);
    MixIsDoubling(Moved3().c2);
    MixIsDoubling(Moved3().c3);
  }

  lemma StateStep5()
    ensures NextState(State4(), Key5()) == State5()
  {
    hide Mul, SubBytesOf, ShiftRowsOf, MixColumn;
    MoveStep4();
    MixIsDoubling(Moved4().c0);
    MixIsDoubling(Moved4().c1);
    MixIsDoubling(Moved4().c2);
    MixIsDoubling(Moved4().c3);
  }

  lemma StateStep6()
    ensures NextState(State5(), Key6()) == State6()
  {
    hide Mul, SubBytesOf, ShiftRowsOf, MixColumn;
    MoveStep5();
    MixIsDoubling(Moved5().c0);
    MixIsDoubling(Moved5().c1);
    MixIsDoubling(Moved5().c2);
    MixIsDoubling(Moved5().c3);
  }

  lemma StateStep7()
    ensures NextState(State6(), Key7()) == State7()
  {
    hide Mul, SubBytesOf, ShiftRowsOf, MixColumn;
    MoveStep6();
    MixIsDoubling(Moved6().c0);
    MixIsDoubling(Moved6().c1);
    MixIsDoubling(Moved6().c2);
    MixIsDoubling(Moved6().c3);
  }

  lemma StateStep8()
    ensures NextState(State7(), Key8()) == State8()
  {
    hide Mul, SubBytesOf, ShiftRowsOf, MixColumn;
    MoveStep7();
    MixIsDoubling(Moved7().c0);
    MixIsDoubling(Moved7().c1);
    MixIsDoubling(Moved7().c2);
    MixIsDoubling(Moved7().c3);
  }

  lemma StateStep9()
    ensures NextState(State8(), Key9()) == State9()
  {
    hide Mul, SubBytesOf, ShiftRowsOf, MixColumn;
    MoveStep8();
    MixIsDoubling(Moved8().c0);
    MixIsDoubling(Moved8().c1);
    MixIsDoubling(Moved8().c2);
    MixIsDoubling(Moved8().c3);
  }

  lemma StateStep(round: nat)
    requires 1 <= round <= 9
    ensures NextState(StateAfter(round - 1), KeyOf(round)) == StateAfter(round)
  {
    hide NextState;
    hide Key0, Key1, Key2, Key3, Key4, Key5, Key6, Key7, Key8, Key9, Key10;
    hide State0, State1, State2, State3, State4, State5, State6, State7, State8, State9;
    match round
    case 1 => StateStep1();
    case 2 => StateStep2();
    case 3 => StateStep3();
    case 4 => StateStep4();
    case 5 => StateStep5();
    case 6 => StateStep6();
    case 7 => StateStep7();
    case 8 => StateStep8();
    case _ => StateStep9();
  }

  lemma {:induction false} StateIs(round: nat)
    requires round <= 9
    ensures Rounds(BlockAt(PLAIN, 0), KEY, round) == StateAfter(round)
  {
    hide RoundKey, NextState, BlockAt, AddKey, Rounds, StateAfter, KeyOf;
    KeyIs(round);
    if round == 0 {
      FirstState();
    } else {
      StateIs(round - 1);
      RoundsNext(BlockAt(PLAIN, 0), KEY, round);
      StateStep(round);
    }
  }

  lemma FirstState()
    ensures RoundKey(KEY, 0) == KeyOf(0) ==> Rounds(BlockAt(PLAIN, 0), KEY, 0) == StateAfter(0)
  {
    hide RoundKey;
    assert AddKey(BlockAt(PLAIN, 0), Key0()) == State0();
    hide AddKey, BlockAt, Key0, State0;
  }

  lemma RoundsNext(s: Block, key: seq<bv8>, round: nat)
    requires |key| == 16 && 1 <= round <= 9
    ensures Rounds(s, key, round) == NextState(Rounds(s, key, round - 1), RoundKey(key, round))
  {
    hide MixColumnsOf, ShiftRowsOf, SubBytesOf, AddKey, RoundKey;
  }

  lemma LastStep()
    ensures BytesOf(AddKey(ShiftRowsOf(SubBytesOf(State9())), Key10())) == ENCIPHERED
  {
    hide SubBytesOf, ShiftRowsOf;
    MoveStep9();
  }

  /** The code book turns the example's block into its ciphertext, and back. */
  lemma ExampleEnciphered()
    ensures Encrypted(PLAIN, KEY, 1) == ENCIPHERED && Decrypted(ENCIPHERED, KEY, 1) == PLAIN
  {
    hide RoundKey, Rounds, AddKey, ShiftRowsOf, SubBytesOf, BytesOf, BlockAt, Decrypted, State9, Key10;
    StateIs(9);
    KeyIs(10);
    LastStep();
    assert Blockwise(PLAIN, s => Cipher(s, KEY), 0) == [];
    EcbInverse(PLAIN, KEY, 1);
  }
}
