/** The key schedule, the ten rounds and the block-by-block (ECB) use of AES-128
    (next-frontend/app/lib/aesEcb.ts, sections 5.1 to 5.3 of FIPS 197). */
module AesCipher {
  import opened AesTables
  import opened Aes

  // ---- key words ----

  function Pack(a: bv8, b: bv8, c: bv8, d: bv8): bv32 {
    (a as bv32 << 24) | (b as bv32 << 16) | (c as bv32 << 8) | d as bv32
  }

  function ByteOf(word: bv32, shift: bv32): bv8
    requires shift <= 24
  {
    ((word >> shift) & 0xff) as bv8
  }

  ghost function Unpack(word: bv32): Column {
    Column(ByteOf(word, 24), ByteOf(word, 16), ByteOf(word, 8), ByteOf(word, 0))
  }

  ghost function XorColumn(x: Column, y: Column): Column {
    Column(Xor(x.a, y.a), Xor(x.b, y.b), Xor(x.c, y.c), Xor(x.d, y.d))
  }

  lemma UnpackPack(a: bv8, b: bv8, c: bv8, d: bv8)
    ensures Unpack(Pack(a, b, c, d)) == Column(a, b, c, d)
  {
  }

  lemma UnpackXor(x: bv32, y: bv32)
    ensures Unpack(x ^ y) == XorColumn(Unpack(x), Unpack(y))
  {
  }

  // ---- AddRoundKey ----

  // The four schedule words a round adds
  ghost function FourWords(w: seq<bv32>, round: nat): Block
    requires |w| == 44 && round <= 10
  {
    Block(Unpack(w[4 * round]), Unpack(w[4 * round + 1]), Unpack(w[4 * round + 2]), Unpack(w[4 * round + 3]))
  }

  ghost function AddKey(s: Block, k: Block): Block {
    Block(XorColumn(s.c0, k.c0), XorColumn(s.c1, k.c1), XorColumn(s.c2, k.c2), XorColumn(s.c3, k.c3))
  }

  lemma XorTwice(x: bv8, k: bv8)
    ensures Xor(Xor(x, k), k) == x
  {
    XorAssoc(x, k, k);
    XorZero(k);
    XorZero(x);
  }

  lemma XorColumnTwice(x: Column, k: Column)
    ensures XorColumn(XorColumn(x, k), k) == x
  {
    XorTwice(x.a, k.a);
    XorTwice(x.b, k.b);
    XorTwice(x.c, k.c);
    XorTwice(x.d, k.d);
  }

  lemma AddKeyTwice(s: Block, k: Block)
    ensures AddKey(AddKey(s, k), k) == s
  {
    XorColumnTwice(s.c0, k.c0);
    XorColumnTwice(s.c1, k.c1);
    XorColumnTwice(s.c2, k.c2);
    XorColumnTwice(s.c3, k.c3);
  }

  method AddRoundKey(state: array<bv8>, w: array<bv32>, round: nat)
    requires state.Length == 16 && w.Length == 44 && round <= 10
    modifies state
    ensures View(state) == AddKey(old(View(state)), FourWords(w[..], round))
  {
    hide ByteOf, Xor, Unpack, XorColumn;
    var o := round * 4;
    for q := 0 to 4
      invariant forall k :: 0 <= k < q ==>
                  ColumnAt(state, 4 * k) == XorColumn(old(ColumnAt(state, 4 * k)), Unpack(w[o + k]))
      invariant forall k :: q <= k < 4 ==> ColumnAt(state, 4 * k) == old(ColumnAt(state, 4 * k))
    {
      AddWord(state, 4 * q, w[o + q]);
    }
    assert ColumnAt(state, 4 * 0) == View(state).c0 && ColumnAt(state, 4 * 1) == View(state).c1;
    assert ColumnAt(state, 4 * 2) == View(state).c2 && ColumnAt(state, 4 * 3) == View(state).c3;
  }

  lemma XorBytes(x: bv8, y: bv8)
    ensures x ^ y == Xor(x, y)
  {
  }

  method AddWord(state: array<bv8>, c: nat, word: bv32)
    requires c + 4 <= state.Length
    modifies state
    ensures ColumnAt(state, c) == XorColumn(old(ColumnAt(state, c)), Unpack(word))
    ensures forall j :: 0 <= j < state.Length && !(c <= j < c + 4) ==> state[j] == old(state[j])
  {
    hide ByteOf, Xor;
    XorBytes(state[c], ByteOf(word, 24));
    XorBytes(state[c + 1], ByteOf(word, 16));
    XorBytes(state[c + 2], ByteOf(word, 8));
    XorBytes(state[c + 3], ByteOf(word, 0));
    state[c] := state[c] ^ ByteOf(word, 24);
    state[c + 1] := state[c + 1] ^ ByteOf(word, 16);
    state[c + 2] := state[c + 2] ^ ByteOf(word, 8);
    state[c + 3] := state[c + 3] ^ ByteOf(word, 0);
  }

  // ---- key expansion (section 5.2) ----

  const RCON: seq<bv8> := [0x01, 0x02, 0x04, 0x08, 0x10, 0x20, 0x40, 0x80, 0x1b, 0x36]

  // x^j in the field
  ghost function PowerOfX(j: nat): bv8 {
    if j == 0 then 1 else Xtime(PowerOfX(j - 1))
  }

  /** The table of round constants holds the powers of x. */
  lemma RconIsPowerOfX(j: nat)
    requires j < 10
    ensures |RCON| == 10 && RCON[j] == PowerOfX(j)
  {
    assert PowerOfX(2) == 4;
    assert PowerOfX(4) == 16;
    assert PowerOfX(6) == 64;
    assert PowerOfX(8) == 0x1b;
  }

  ghost function RotWord(x: Column): Column {
    Column(x.b, x.c, x.d, x.a)
  }

  ghost function KeyWord(key: seq<bv8>, i: nat): Column
    requires |key| == 16
  {
    if i < 4 then Column(key[4 * i], key[4 * i + 1], key[4 * i + 2], key[4 * i + 3])
    else XorColumn(KeyWord(key, i - 4), Addend(KeyWord(key, i - 1), i))
  }

  // What word i adds to the word four places back
  ghost function Addend(temp: Column, i: nat): Column
    requires i >= 4
  {
    if i % 4 == 0 then NextRoundWord(temp, i / 4 - 1) else temp
  }

  // Rotate, substitute, and add the round constant to the first byte
  ghost function NextRoundWord(temp: Column, j: nat): Column {
    XorColumn(SubColumn(RotWord(temp), Sbox), Column(PowerOfX(j), 0, 0, 0))
  }

  // Words 0 to i - 1 of the schedule are in place.
  ghost predicate ExpandedTo(w: seq<bv32>, key: seq<bv8>, i: nat)
    requires |w| == 44 && |key| == 16 && i <= 44
  {
    forall j :: 0 <= j < i ==> Unpack(w[j]) == KeyWord(key, j)
  }

  lemma Extend(w: seq<bv32>, key: seq<bv8>, i: nat, word: bv32)
    requires |w| == 44 && |key| == 16 && i < 44 && ExpandedTo(w, key, i)
    requires Unpack(word) == KeyWord(key, i)
    ensures ExpandedTo(w[i := word], key, i + 1)
  {
    hide Unpack, KeyWord;
  }

  method CopyKeyWord(key: seq<bv8>, w: array<bv32>, i: nat)
    requires |key| == 16 && w.Length == 44 && i < 4 && ExpandedTo(w[..], key, i)
    modifies w
    ensures ExpandedTo(w[..], key, i + 1)
  {
    hide Pack, Unpack, KeyWord;
    var word := Pack(key[i * 4], key[i * 4 + 1], key[i * 4 + 2], key[i * 4 + 3]);
    UnpackPack(key[i * 4], key[i * 4 + 1], key[i * 4 + 2], key[i * 4 + 3]);
    FirstWords(key, i);
    Extend(w[..], key, i, word);
    w[i] := word;
  }

  // Every fourth word is rotated, substituted and given a round constant before it is added.
  method Addition(word: bv32, i: nat) returns (temp: bv32)
    requires 4 <= i < 44
    ensures Unpack(temp) == Addend(Unpack(word), i)
  {
    hide Unpack, NextRoundWord;
    temp := word;
    if i % 4 == 0 {
      temp := Schedule(temp, i / 4 - 1);
    }
  }

  method NextKeyWord(key: seq<bv8>, back4: bv32, back1: bv32, i: nat) returns (word: bv32)
    requires |key| == 16 && 4 <= i < 44
    requires Unpack(back4) == KeyWord(key, i - 4) && Unpack(back1) == KeyWord(key, i - 1)
    ensures Unpack(word) == KeyWord(key, i)
  {
    hide Unpack, XorColumn, KeyWord, Addend;
    var temp := Addition(back1, i);
    word := back4 ^ temp;
    UnpackXor(back4, temp);
    NextWord(key, i);
  }

  method AddKeyWord(key: seq<bv8>, w: array<bv32>, i: nat)
    requires |key| == 16 && w.Length == 44 && 4 <= i < 44 && ExpandedTo(w[..], key, i)
    modifies w
    ensures ExpandedTo(w[..], key, i + 1)
  {
    hide Unpack, KeyWord;
    var word := NextKeyWord(key, w[i - 4], w[i - 1], i);
    Extend(w[..], key, i, word);
    w[i] := word;
  }

  // Byte k of a word, the most significant one first
  ghost function WordByte(word: bv32, k: nat): bv8
    requires k < 4
  {
    if k == 0 then ByteOf(word, 24) else if k == 1 then ByteOf(word, 16)
    else if k == 2 then ByteOf(word, 8) else ByteOf(word, 0)
  }

  // What byte k of word i adds to that byte of the word four places back: the same byte of the word before; in every
  // fourth word the substitute of its next byte, going round, and for the first byte a power of x as well
  ghost function Added(w: seq<bv32>, i: nat, k: nat): bv8
    requires |w| == 44 && 4 <= i < 44 && k < 4
  {
    if i % 4 != 0 then WordByte(w[i - 1], k)
    else if k == 0 then Xor(Sbox(WordByte(w[i - 1], 1)), PowerOfX(i / 4 - 1))
    else Sbox(WordByte(w[i - 1], (k + 1) % 4))
  }

  // The schedule byte by byte, as section 5.2 of FIPS 197 lays it down
  ghost predicate Scheduled(w: seq<bv32>, key: seq<bv8>)
    requires |w| == 44 && |key| == 16
  {
    && (forall i, k :: 0 <= i < 4 && 0 <= k < 4 ==> WordByte(w[i], k) == key[4 * i + k])
    && (forall i, k :: 4 <= i < 44 && 0 <= k < 4 ==>
          WordByte(w[i], k) == Xor(WordByte(w[i - 4], k), Added(w, i, k)))
  }

  /** The words the recursion describes are those bytes. */
  lemma ExpandedIsScheduled(w: seq<bv32>, key: seq<bv8>)
    requires |w| == 44 && |key| == 16 && ExpandedTo(w, key, 44)
    ensures Scheduled(w, key)
  {
    hide KeyWord, Sbox, Xor, PowerOfX, ByteOf;
    forall i, k | 0 <= i < 4 && 0 <= k < 4
      ensures WordByte(w[i], k) == key[4 * i + k]
    {
      FirstWords(key, i);
    }
    forall i, k | 4 <= i < 44 && 0 <= k < 4
      ensures WordByte(w[i], k) == Xor(WordByte(w[i - 4], k), Added(w, i, k))
    {
      NextWord(key, i);
      NextBytes(w, key, i, k);
    }
  }

  lemma NextBytes(w: seq<bv32>, key: seq<bv8>, i: nat, k: nat)
    requires |w| == 44 && |key| == 16 && 4 <= i < 44 && k < 4
    requires Unpack(w[i]) == XorColumn(Unpack(w[i - 4]), Addend(Unpack(w[i - 1]), i))
    ensures WordByte(w[i], k) == Xor(WordByte(w[i - 4], k), Added(w, i, k))
  {
    hide Sbox, Xor, PowerOfX, ByteOf, NextRoundWord;
    if i % 4 == 0 {
      NextRoundBytes(w[i - 1], i / 4 - 1, k);
    }
  }

  lemma NextRoundBytes(word: bv32, j: nat, k: nat)
    requires k < 4
    ensures var x := NextRoundWord(Unpack(word), j);
            (if k == 0 then x.a else if k == 1 then x.b else if k == 2 then x.c else x.d)
            == if k == 0 then Xor(Sbox(WordByte(word, 1)), PowerOfX(j)) else Sbox(WordByte(word, (k + 1) % 4))
  {
    hide Sbox, Xor, PowerOfX, ByteOf;
    XorZero(Sbox(WordByte(word, (k + 1) % 4)));
  }

  method ExpandKey(key: seq<bv8>) returns (w: array<bv32>)
    requires |key| == 16
    ensures w.Length == 44 && fresh(w) && ExpandedTo(w[..], key, 44) && Scheduled(w[..], key)
  {
    hide Unpack, KeyWord, Scheduled;
    w := new bv32[44];
    for i := 0 to 4
      invariant ExpandedTo(w[..], key, i)
    {
      CopyKeyWord(key, w, i);
    }
    for i := 4 to 44
      invariant ExpandedTo(w[..], key, i)
    {
      AddKeyWord(key, w, i);
    }
    ExpandedIsScheduled(w[..], key);
  }

  lemma FirstWords(key: seq<bv8>, i: nat)
    requires |key| == 16 && i < 4
    ensures KeyWord(key, i) == Column(key[4 * i], key[4 * i + 1], key[4 * i + 2], key[4 * i + 3])
  {
  }

  lemma NextWord(key: seq<bv8>, i: nat)
    requires |key| == 16 && i >= 4
    ensures KeyWord(key, i) == XorColumn(KeyWord(key, i - 4), Addend(KeyWord(key, i - 1), i))
  {
    hide XorColumn, Addend;
  }

  method Schedule(word: bv32, j: nat) returns (temp: bv32)
    requires j < 10
    ensures Unpack(temp) == NextRoundWord(Unpack(word), j)
  {
    var b0, b1, b2, b3 := ByteOf(word, 24), ByteOf(word, 16), ByteOf(word, 8), ByteOf(word, 0);
    RconIsPowerOfX(j);
    var rcon := RCON[j];
    var s0, s1, s2, s3 := Sbox(b0), Sbox(b1), Sbox(b2), Sbox(b3);
    temp := Pack(s1 ^ rcon, s2, s3, s0);
    UnpackPack(s1 ^ rcon, s2, s3, s0);
    XorZero(s2);
    XorZero(s3);
    XorZero(s0);
  }

  // ---- the cipher and its inverse ----

  ghost function RoundKey(key: seq<bv8>, round: nat): Block
    requires |key| == 16
  {
    Block(KeyWord(key, 4 * round), KeyWord(key, 4 * round + 1), KeyWord(key, 4 * round + 2), KeyWord(key, 4 * round + 3))
  }

  // The state after the initial key and n full rounds
  ghost function Rounds(s: Block, key: seq<bv8>, n: nat): Block
    requires |key| == 16 && n <= 9
  {
    if n == 0 then AddKey(s, RoundKey(key, 0))
    else AddKey(MixColumnsOf(ShiftRowsOf(SubBytesOf(Rounds(s, key, n - 1)))), RoundKey(key, n))
  }

  ghost function Cipher(s: Block, key: seq<bv8>): Block
    requires |key| == 16
  {
    AddKey(ShiftRowsOf(SubBytesOf(Rounds(s, key, 9))), RoundKey(key, 10))
  }

  // The state after the last key has been removed and rounds 9 down to k have been undone
  ghost function Undone(s: Block, key: seq<bv8>, k: nat): Block
    requires |key| == 16 && 1 <= k <= 10
    decreases 10 - k
  {
    if k == 10 then AddKey(s, RoundKey(key, 10))
    else InvMixColumnsOf(AddKey(InvSubBytesOf(InvShiftRowsOf(Undone(s, key, k + 1))), RoundKey(key, k)))
  }

  ghost function InvCipher(s: Block, key: seq<bv8>): Block
    requires |key| == 16
  {
    AddKey(InvSubBytesOf(InvShiftRowsOf(Undone(s, key, 1))), RoundKey(key, 0))
  }

  lemma SubShiftInverse(s: Block)
    ensures InvSubBytesOf(InvShiftRowsOf(ShiftRowsOf(SubBytesOf(s)))) == s
    ensures ShiftRowsOf(SubBytesOf(InvSubBytesOf(InvShiftRowsOf(s)))) == s
  {
    ShiftRowsInverse(SubBytesOf(s));
    SubBytesInverse(s);
    SubBytesInverse(InvShiftRowsOf(s));
    ShiftRowsInverse(s);
  }

  /** Undoing a round leaves the state the enciphering had before it. */
  lemma {:induction false} UndoRounds(s: Block, key: seq<bv8>, k: nat)
    requires |key| == 16 && 1 <= k <= 10
    ensures Undone(Cipher(s, key), key, k) == ShiftRowsOf(SubBytesOf(Rounds(s, key, k - 1)))
    decreases 10 - k
  {
    hide SubBytesOf, ShiftRowsOf, MixColumnsOf, AddKey, InvSubBytesOf, InvShiftRowsOf, InvMixColumnsOf, RoundKey;
    if k == 10 {
      AddKeyTwice(ShiftRowsOf(SubBytesOf(Rounds(s, key, 9))), RoundKey(key, 10));
    } else {
      UndoRounds(s, key, k + 1);
      var t := ShiftRowsOf(SubBytesOf(Rounds(s, key, k - 1)));
      SubShiftInverse(Rounds(s, key, k));
      AddKeyTwice(MixColumnsOf(t), RoundKey(key, k));
      MixColumnsInverse(t);
    }
  }

  lemma {:induction false} RedoRounds(s: Block, key: seq<bv8>, n: nat)
    requires |key| == 16 && n <= 9
    ensures ShiftRowsOf(SubBytesOf(Rounds(InvCipher(s, key), key, n))) == Undone(s, key, n + 1)
  {
    hide SubBytesOf, ShiftRowsOf, MixColumnsOf, AddKey, InvSubBytesOf, InvShiftRowsOf, InvMixColumnsOf, RoundKey;
    if n == 0 {
      AddKeyTwice(InvSubBytesOf(InvShiftRowsOf(Undone(s, key, 1))), RoundKey(key, 0));
      SubShiftInverse(Undone(s, key, 1));
    } else {
      RedoRounds(s, key, n - 1);
      var t := AddKey(InvSubBytesOf(InvShiftRowsOf(Undone(s, key, n + 1))), RoundKey(key, n));
      MixColumnsInverse(t);
      AddKeyTwice(InvSubBytesOf(InvShiftRowsOf(Undone(s, key, n + 1))), RoundKey(key, n));
      SubShiftInverse(Undone(s, key, n + 1));
    }
  }

  /** For every key schedule, each cipher undoes the other on every block. */
  lemma CipherInverse(s: Block, key: seq<bv8>)
    requires |key| == 16
    ensures InvCipher(Cipher(s, key), key) == s && Cipher(InvCipher(s, key), key) == s
  {
    hide SubBytesOf, ShiftRowsOf, AddKey, InvSubBytesOf, InvShiftRowsOf, RoundKey;
    UndoRounds(s, key, 1);
    SubShiftInverse(Rounds(s, key, 0));
    AddKeyTwice(s, RoundKey(key, 0));
    RedoRounds(s, key, 9);
    AddKeyTwice(s, RoundKey(key, 10));
  }

  // ---- the block object ----

  ghost predicate Expanded(w: seq<bv32>, key: seq<bv8>) {
    |w| == 44 && |key| == 16 && ExpandedTo(w, key, 44)
  }

  lemma FourWordsAreRoundKey(w: seq<bv32>, key: seq<bv8>, round: nat)
    requires Expanded(w, key) && round <= 10
    ensures FourWords(w, round) == RoundKey(key, round)
  {
    hide Unpack, KeyWord;
  }

  ghost function BlockAt(data: seq<bv8>, i: nat): Block
    requires i + 16 <= |data|
  {
    Block(Column(data[i], data[i + 1], data[i + 2], data[i + 3]),
          Column(data[i + 4], data[i + 5], data[i + 6], data[i + 7]),
          Column(data[i + 8], data[i + 9], data[i + 10], data[i + 11]),
          Column(data[i + 12], data[i + 13], data[i + 14], data[i + 15]))
  }

  class Aes128 {
    ghost const key: seq<bv8>
    const w: array<bv32>
    const state: array<bv8>

    ghost predicate Valid()
      reads w
    {
      Expanded(w[..], key) && state.Length == 16
    }

    constructor (key: seq<bv8>)
      requires |key| == 16
      ensures Valid() && this.key == key && fresh(w) && fresh(state)
    {
      var words := ExpandKey(key);
      this.key := key;
      w := words;
      state := new bv8[16];
    }

    method Load(block: array<bv8>)
      requires state.Length == 16 && block.Length == 16 && block != state
      modifies state
      ensures View(state) == View(block)
    {
      for i := 0 to 16
        invariant forall j :: 0 <= j < i ==> state[j] == block[j]
      {
        state[i] := block[i];
      }
    }

    method Store(out: array<bv8>, at: nat)
      requires state.Length == 16 && at + 16 <= out.Length && out != state
      modifies out
      ensures BlockAt(out[..], at) == View(state)
      ensures forall j :: 0 <= j < out.Length && !(at <= j < at + 16) ==> out[j] == old(out[j])
    {
      for i := 0 to 16
        invariant forall j :: 0 <= j < i ==> out[at + j] == state[j]
        invariant forall j :: 0 <= j < out.Length && !(at <= j < at + i) ==> out[j] == old(out[j])
      {
        out[at + i] := state[i];
      }
    }

    // One round key, taken from the stored schedule
    method AddKeyOf(round: nat)
      requires Valid() && round <= 10
      modifies state
      ensures Valid() && View(state) == AddKey(old(View(state)), RoundKey(key, round))
    {
      hide Unpack, AddKey, RoundKey, FourWords, View, KeyWord;
      AddRoundKey(state, w, round);
      FourWordsAreRoundKey(w[..], key, round);
    }

    method EncryptBlock(block: array<bv8>, out: array<bv8>, at: nat)
      requires Valid() && block.Length == 16 && at + 16 <= out.Length
      requires block != state && out != state
      modifies state, out
      ensures Valid() && BlockAt(out[..], at) == Cipher(old(View(block)), key)
      ensures forall j :: 0 <= j < out.Length && !(at <= j < at + 16) ==> out[j] == old(out[j])
    {
      hide SubBytesOf, ShiftRowsOf, MixColumnsOf, AddKey, RoundKey, BlockAt, Unpack, KeyWord;
      Load(block);
      AddKeyOf(0);
      for round := 1 to 10
        invariant Valid() && View(state) == Rounds(old(View(block)), key, round - 1)
        invariant out[..] == old(out[..])
      {
        SubBytes(state);
        ShiftRows(state);
        MixColumns(state);
        AddKeyOf(round);
      }
      SubBytes(state);
      ShiftRows(state);
      AddKeyOf(10);
      Store(out, at);
    }

    method DecryptBlock(block: array<bv8>, out: array<bv8>, at: nat)
      requires Valid() && block.Length == 16 && at + 16 <= out.Length
      requires block != state && out != state
      modifies state, out
      ensures Valid() && BlockAt(out[..], at) == InvCipher(old(View(block)), key)
      ensures forall j :: 0 <= j < out.Length && !(at <= j < at + 16) ==> out[j] == old(out[j])
    {
      hide InvSubBytesOf, InvShiftRowsOf, InvMixColumnsOf, AddKey, RoundKey, BlockAt, Unpack, KeyWord;
      Load(block);
      AddKeyOf(10);
      for round := 10 downto 1
        invariant Valid() && View(state) == Undone(old(View(block)), key, round)
        invariant out[..] == old(out[..])
      {
        InvShiftRows(state);
        InvSubBytes(state);
        AddKeyOf(round);
        InvMixColumns(state);
      }
      InvShiftRows(state);
      InvSubBytes(state);
      AddKeyOf(0);
      Store(out, at);
    }
  }

  // ---- many blocks (ECB) ----

  ghost function BytesOf(s: Block): seq<bv8> {
    [s.c0.a, s.c0.b, s.c0.c, s.c0.d, s.c1.a, s.c1.b, s.c1.c, s.c1.d,
     s.c2.a, s.c2.b, s.c2.c, s.c2.d, s.c3.a, s.c3.b, s.c3.c, s.c3.d]
  }

  // The first n 16-byte blocks, each replaced by f of it
  ghost function Blockwise(data: seq<bv8>, f: Block -> Block, n: nat): (r: seq<bv8>)
    requires 16 * n <= |data|
    ensures |r| == 16 * n
  {
    if n == 0 then [] else Blockwise(data, f, n - 1) + BytesOf(f(BlockAt(data, 16 * (n - 1))))
  }

  lemma BlockOfBytes(head: seq<bv8>, s: Block)
    ensures BlockAt(head + BytesOf(s), |head|) == s
  {
  }

  lemma BytesOfBlock(data: seq<bv8>, i: nat)
    requires i + 16 <= |data|
    ensures BytesOf(BlockAt(data, i)) == data[i..i + 16]
  {
  }

  lemma BlockOfPrefix(head: seq<bv8>, tail: seq<bv8>, i: nat)
    requires i + 16 <= |head|
    ensures BlockAt(head + tail, i) == BlockAt(head, i)
  {
  }

  /** Every block of the result is the image of the block in the same place. */
  lemma {:induction false} BlockwiseAt(data: seq<bv8>, f: Block -> Block, n: nat, b: nat)
    requires 16 * n <= |data| && b < n
    ensures BlockAt(Blockwise(data, f, n), 16 * b) == f(BlockAt(data, 16 * b))
  {
    hide BlockAt, BytesOf;
    var head, last := Blockwise(data, f, n - 1), f(BlockAt(data, 16 * (n - 1)));
    if b == n - 1 {
      BlockOfBytes(head, last);
    } else {
      BlockwiseAt(data, f, n - 1, b);
      BlockOfPrefix(head, BytesOf(last), 16 * b);
    }
  }

  lemma {:induction false} BlockwiseInverse(data: seq<bv8>, f: Block -> Block, g: Block -> Block, n: nat, b: nat)
    requires b <= n && 16 * n <= |data|
    requires forall s :: g(f(s)) == s
    ensures Blockwise(Blockwise(data, f, n), g, b) == data[..16 * b]
  {
    hide BlockAt, BytesOf;
    if b > 0 {
      BlockwiseInverse(data, f, g, n, b - 1);
      BlockwiseAt(data, f, n, b - 1);
      BytesOfBlock(data, 16 * (b - 1));
      assert data[..16 * b] == data[..16 * (b - 1)] + data[16 * (b - 1)..16 * b];
    }
  }

  ghost function Encrypted(data: seq<bv8>, key: seq<bv8>, n: nat): (r: seq<bv8>)
    requires 16 * n <= |data| && |key| == 16
    ensures |r| == 16 * n
  {
    Blockwise(data, s => Cipher(s, key), n)
  }

  ghost function Decrypted(data: seq<bv8>, key: seq<bv8>, n: nat): (r: seq<bv8>)
    requires 16 * n <= |data| && |key| == 16
    ensures |r| == 16 * n
  {
    Blockwise(data, s => InvCipher(s, key), n)
  }

  /** For every key and every block-aligned input of any length the two directions undo each other. */
  lemma EcbInverse(data: seq<bv8>, key: seq<bv8>, n: nat)
    requires |data| == 16 * n && |key| == 16
    ensures Decrypted(Encrypted(data, key, n), key, n) == data
    ensures Encrypted(Decrypted(data, key, n), key, n) == data
  {
    hide Cipher, InvCipher, Blockwise;
    var f, g := (s: Block) => Cipher(s, key), (s: Block) => InvCipher(s, key);
    forall s: Block
      ensures g(f(s)) == s && f(g(s)) == s
    {
      CipherInverse(s, key);
    }
    BlockwiseInverse(data, f, g, n, n);
    BlockwiseInverse(data, g, f, n, n);
  }

  datatype EcbOutcome = Bytes(bytes: seq<bv8>) | BadLength | BadKey

  method CopyBlock(data: seq<bv8>, i: nat, block: array<bv8>)
    requires i + 16 <= |data| && block.Length == 16
    modifies block
    ensures View(block) == BlockAt(data, i)
  {
    for j := 0 to 16
      invariant forall k :: 0 <= k < j ==> block[k] == data[i + k]
    {
      block[j] := data[i + j];
    }
  }

  lemma OneMoreBlock(was: seq<bv8>, out: seq<bv8>, i: nat, s: Block)
    requires i + 16 <= |out| == |was|
    requires out[..i] == was[..i] && BlockAt(out, i) == s
    ensures out[..i + 16] == was[..i] + BytesOf(s)
  {
    BytesOfBlock(out, i);
    assert out[..i + 16] == out[..i] + out[i..i + 16];
  }

  // One turn of the loop: block b goes through the cipher into the same place of out.
  method EncryptAt(aes: Aes128, data: seq<bv8>, b: nat, block: array<bv8>, out: array<bv8>)
    requires aes.Valid() && block.Length == 16 && out.Length == |data|
    requires block != aes.state && out != aes.state && out != block
    requires 16 * b + 16 <= |data| && out[..16 * b] == Encrypted(data, aes.key, b)
    modifies aes.state, block, out
    ensures aes.Valid() && out[..16 * b + 16] == Encrypted(data, aes.key, b + 1)
  {
    hide Cipher, BlockAt, BytesOf, KeyWord, Unpack, View;
    ghost var was := out[..];
    CopyBlock(data, 16 * b, block);
    aes.EncryptBlock(block, out, 16 * b);
    OneMoreBlock(was, out[..], 16 * b, Cipher(BlockAt(data, 16 * b), aes.key));
  }

  method EncryptAll(aes: Aes128, data: seq<bv8>, block: array<bv8>, out: array<bv8>)
    requires aes.Valid() && block.Length == 16 && out.Length == |data| && |data| % 16 == 0
    requires block != aes.state && out != aes.state && out != block
    modifies aes.state, block, out
    ensures out[..] == Encrypted(data, aes.key, |data| / 16)
  {
    hide Cipher, BlockAt, BytesOf, KeyWord, Unpack, View;
    for b := 0 to |data| / 16
      invariant aes.Valid()
      invariant out[..16 * b] == Encrypted(data, aes.key, b)
    {
      EncryptAt(aes, data, b, block, out);
    }
    assert out[..|data|] == out[..];
  }

  method Aes128EcbEncrypt(data: seq<bv8>, key: seq<bv8>) returns (r: EcbOutcome)
    ensures |data| % 16 != 0 ==> r == BadLength
    ensures |data| % 16 == 0 && |key| != 16 ==> r == BadKey
    ensures |data| % 16 == 0 && |key| == 16 ==> r == Bytes(Encrypted(data, key, |data| / 16))
  {
    if |data| % 16 != 0 { return BadLength; }
    if |key| != 16 { return BadKey; }
    hide Encrypted, Expanded;
    var aes := new Aes128(key);
    var out := new bv8[|data|];
    var block := new bv8[16];
    EncryptAll(aes, data, block, out);
    return Bytes(out[..]);
  }

  // One turn of the loop: block b goes through the cipher into the same place of out.
  method DecryptAt(aes: Aes128, data: seq<bv8>, b: nat, block: array<bv8>, out: array<bv8>)
    requires aes.Valid() && block.Length == 16 && out.Length == |data|
    requires block != aes.state && out != aes.state && out != block
    requires 16 * b + 16 <= |data| && out[..16 * b] == Decrypted(data, aes.key, b)
    modifies aes.state, block, out
    ensures aes.Valid() && out[..16 * b + 16] == Decrypted(data, aes.key, b + 1)
  {
    hide InvCipher, BlockAt, BytesOf, KeyWord, Unpack, View;
    ghost var was := out[..];
    CopyBlock(data, 16 * b, block);
    aes.DecryptBlock(block, out, 16 * b);
    OneMoreBlock(was, out[..], 16 * b, InvCipher(BlockAt(data, 16 * b), aes.key));
  }

  method DecryptAll(aes: Aes128, data: seq<bv8>, block: array<bv8>, out: array<bv8>)
    requires aes.Valid() && block.Length == 16 && out.Length == |data| && |data| % 16 == 0
    requires block != aes.state && out != aes.state && out != block
    modifies aes.state, block, out
    ensures out[..] == Decrypted(data, aes.key, |data| / 16)
  {
    hide InvCipher, BlockAt, BytesOf, KeyWord, Unpack, View;
    for b := 0 to |data| / 16
      invariant aes.Valid()
      invariant out[..16 * b] == Decrypted(data, aes.key, b)
    {
      DecryptAt(aes, data, b, block, out);
    }
    assert out[..|data|] == out[..];
  }

  method Aes128EcbDecrypt(data: seq<bv8>, key: seq<bv8>) returns (r: EcbOutcome)
    ensures |data| % 16 != 0 ==> r == BadLength
    ensures |data| % 16 == 0 && |key| != 16 ==> r == BadKey
    ensures |data| % 16 == 0 && |key| == 16 ==> r == Bytes(Decrypted(data, key, |data| / 16))
  {
    if |data| % 16 != 0 { return BadLength; }
    if |key| != 16 { return BadKey; }
    hide Decrypted, Expanded;
    var aes := new Aes128(key);
    var out := new bv8[|data|];
    var block := new bv8[16];
    DecryptAll(aes, data, block, out);
    return Bytes(out[..]);
  }
}
