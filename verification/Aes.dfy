/** AES-128 on a 16-byte state: every round step as the in-place code performs it, its specification,
    and the proof that deciphering undoes enciphering (next-frontend/app/lib/aesEcb.ts, FIPS 197). */
module Aes {
  import opened AesTables

  // The state as four columns of four bytes (section 3.4 of FIPS 197)
  datatype Column = Column(a: bv8, b: bv8, c: bv8, d: bv8)

  datatype Block = Block(c0: Column, c1: Column, c2: Column, c3: Column)

  ghost function View(state: array<bv8>): Block
    requires state.Length == 16
    reads state
  {
    Block(Column(state[0], state[1], state[2], state[3]), Column(state[4], state[5], state[6], state[7]),
          Column(state[8], state[9], state[10], state[11]), Column(state[12], state[13], state[14], state[15]))
  }

  // ---- SubBytes ----

  ghost function SubColumn(x: Column, table: bv8 -> bv8): Column {
    Column(table(x.a), table(x.b), table(x.c), table(x.d))
  }

  ghost function Substituted(s: Block, table: bv8 -> bv8): Block {
    Block(SubColumn(s.c0, table), SubColumn(s.c1, table), SubColumn(s.c2, table), SubColumn(s.c3, table))
  }

  ghost function SubBytesOf(s: Block): Block {
    Substituted(s, Sbox)
  }

  ghost function InvSubBytesOf(s: Block): Block {
    Substituted(s, InvSbox)
  }

  lemma SubstitutedInverse(s: Block, f: bv8 -> bv8, g: bv8 -> bv8)
    requires forall x :: g(f(x)) == x
    ensures Substituted(Substituted(s, f), g) == s
  {
  }

  lemma SubBytesInverse(s: Block)
    ensures InvSubBytesOf(SubBytesOf(s)) == s && SubBytesOf(InvSubBytesOf(s)) == s
  {
    forall x: bv8
      ensures InvSbox(Sbox(x)) == x && Sbox(InvSbox(x)) == x
    {
      InvSboxOfSbox(x);
      SboxOfInvSbox(x);
    }
    SubstitutedInverse(s, Sbox, InvSbox);
    SubstitutedInverse(s, InvSbox, Sbox);
  }

  // The loop both substitutions run
  method Substitute(state: array<bv8>, table: bv8 -> bv8)
    requires state.Length == 16
    modifies state
    ensures View(state) == Substituted(old(View(state)), table)
  {
    for i := 0 to 16
      invariant forall j :: 0 <= j < i ==> state[j] == table(old(state[j]))
      invariant forall j :: i <= j < 16 ==> state[j] == old(state[j])
    {
      state[i] := table(state[i]);
    }
  }

  method SubBytes(state: array<bv8>)
    requires state.Length == 16
    modifies state
    ensures View(state) == SubBytesOf(old(View(state)))
  {
    Substitute(state, Sbox);
  }

  method InvSubBytes(state: array<bv8>)
    requires state.Length == 16
    modifies state
    ensures View(state) == InvSubBytesOf(old(View(state)))
  {
    Substitute(state, InvSbox);
  }

  // ---- ShiftRows: row r moves r columns to the left (section 5.1.2) ----

  ghost function ShiftRowsOf(s: Block): Block {
    Block(Column(s.c0.a, s.c1.b, s.c2.c, s.c3.d), Column(s.c1.a, s.c2.b, s.c3.c, s.c0.d),
          Column(s.c2.a, s.c3.b, s.c0.c, s.c1.d), Column(s.c3.a, s.c0.b, s.c1.c, s.c2.d))
  }

  ghost function InvShiftRowsOf(s: Block): Block {
    Block(Column(s.c0.a, s.c3.b, s.c2.c, s.c1.d), Column(s.c1.a, s.c0.b, s.c3.c, s.c2.d),
          Column(s.c2.a, s.c1.b, s.c0.c, s.c3.d), Column(s.c3.a, s.c2.b, s.c1.c, s.c0.d))
  }

  lemma ShiftRowsInverse(s: Block)
    ensures InvShiftRowsOf(ShiftRowsOf(s)) == s && ShiftRowsOf(InvShiftRowsOf(s)) == s
  {
  }

  // Each of four cells takes the value of the next one.
  method Cycle(state: array<bv8>, i: nat, j: nat, k: nat, l: nat)
    requires i < state.Length && j < state.Length && k < state.Length && l < state.Length
    requires i != j && i != k && i != l && j != k && j != l && k != l
    modifies state
    ensures state[..] == old(state[..])[i := old(state[j])][j := old(state[k])][k := old(state[l])][l := old(state[i])]
  {
    var t := state[i];
    state[i] := state[j]; state[j] := state[k]; state[k] := state[l]; state[l] := t;
  }

  method Swap(state: array<bv8>, i: nat, j: nat)
    requires i < state.Length && j < state.Length && i != j
    modifies state
    ensures state[..] == old(state[..])[i := old(state[j])][j := old(state[i])]
  {
    var t := state[i];
    state[i] := state[j]; state[j] := t;
  }

  method ShiftRows(state: array<bv8>)
    requires state.Length == 16
    modifies state
    ensures View(state) == ShiftRowsOf(old(View(state)))
  {
    Cycle(state, 1, 5, 9, 13);
    Swap(state, 2, 10);
    Swap(state, 6, 14);
    Cycle(state, 3, 15, 11, 7);
  }

  method InvShiftRows(state: array<bv8>)
    requires state.Length == 16
    modifies state
    ensures View(state) == InvShiftRowsOf(old(View(state)))
  {
    Cycle(state, 13, 9, 5, 1);
    Swap(state, 2, 10);
    Swap(state, 6, 14);
    Cycle(state, 3, 7, 11, 15);
  }

  // ---- MixColumns: every column times a fixed polynomial over the field (section 5.1.3) ----

  ghost function Xor4(a: bv8, b: bv8, c: bv8, d: bv8): bv8 {
    Xor(Xor(a, b), Xor(c, d))
  }

  // Four coefficients against the four bytes of a column
  ghost function Dot(k0: bv8, k1: bv8, k2: bv8, k3: bv8, a: bv8, b: bv8, c: bv8, d: bv8): bv8 {
    Xor4(Mul(a, k0), Mul(b, k1), Mul(c, k2), Mul(d, k3))
  }

  // The first byte of a mixed column; the others follow by rotating the arguments.
  ghost function MixByte(a: bv8, b: bv8, c: bv8, d: bv8): bv8 {
    Dot(0x02, 0x03, 0x01, 0x01, a, b, c, d)
  }

  ghost function InvMixByte(a: bv8, b: bv8, c: bv8, d: bv8): bv8 {
    Dot(0x0e, 0x0b, 0x0d, 0x09, a, b, c, d)
  }

  ghost function MixColumn(x: Column): Column {
    Column(MixByte(x.a, x.b, x.c, x.d), MixByte(x.b, x.c, x.d, x.a),
           MixByte(x.c, x.d, x.a, x.b), MixByte(x.d, x.a, x.b, x.c))
  }

  ghost function InvMixColumn(x: Column): Column {
    Column(InvMixByte(x.a, x.b, x.c, x.d), InvMixByte(x.b, x.c, x.d, x.a),
           InvMixByte(x.c, x.d, x.a, x.b), InvMixByte(x.d, x.a, x.b, x.c))
  }

  ghost function MixColumnsOf(s: Block): Block {
    Block(MixColumn(s.c0), MixColumn(s.c1), MixColumn(s.c2), MixColumn(s.c3))
  }

  ghost function InvMixColumnsOf(s: Block): Block {
    Block(InvMixColumn(s.c0), InvMixColumn(s.c1), InvMixColumn(s.c2), InvMixColumn(s.c3))
  }

  // What one input byte contributes to one output byte through two passes
  ghost function Twice(j0: bv8, j1: bv8, j2: bv8, j3: bv8, k0: bv8, k1: bv8, k2: bv8, k3: bv8, x: bv8): bv8 {
    Xor4(Mul(Mul(x, j0), k0), Mul(Mul(x, j1), k1), Mul(Mul(x, j2), k2), Mul(Mul(x, j3), k3))
  }

  lemma MulXor4(a: bv8, b: bv8, c: bv8, d: bv8, k: bv8)
    ensures Mul(Xor4(a, b, c, d), k) == Xor4(Mul(a, k), Mul(b, k), Mul(c, k), Mul(d, k))
  {
    MulLowXor(Xor(a, b), Xor(c, d), k, 8);
    MulLowXor(a, b, k, 8);
    MulLowXor(c, d, k, 8);
  }

  // Summing a four-by-four table by rows or by columns
  lemma Transpose(p0: bv8, p1: bv8, p2: bv8, p3: bv8, q0: bv8, q1: bv8, q2: bv8, q3: bv8,
                  r0: bv8, r1: bv8, r2: bv8, r3: bv8, s0: bv8, s1: bv8, s2: bv8, s3: bv8)
    ensures Xor4(Xor4(p0, p1, p2, p3), Xor4(q0, q1, q2, q3), Xor4(r0, r1, r2, r3), Xor4(s0, s1, s2, s3)) ==
            Xor4(Xor4(p0, q0, r0, s0), Xor4(p1, q1, r1, s1), Xor4(p2, q2, r2, s2), Xor4(p3, q3, r3, s3))
  {
    TransposeHalf(p0, p1, p2, p3, q0, q1, q2, q3);
    TransposeHalf(r0, r1, r2, r3, s0, s1, s2, s3);
    XorPairs(Xor(Xor(p0, q0), Xor(p1, q1)), Xor(Xor(p2, q2), Xor(p3, q3)),
             Xor(Xor(r0, s0), Xor(r1, s1)), Xor(Xor(r2, s2), Xor(r3, s3)));
    XorPairs(Xor(p0, q0), Xor(p1, q1), Xor(r0, s0), Xor(r1, s1));
    XorPairs(Xor(p2, q2), Xor(p3, q3), Xor(r2, s2), Xor(r3, s3));
  }

  lemma TransposeHalf(p0: bv8, p1: bv8, p2: bv8, p3: bv8, q0: bv8, q1: bv8, q2: bv8, q3: bv8)
    ensures Xor(Xor4(p0, p1, p2, p3), Xor4(q0, q1, q2, q3)) ==
            Xor(Xor(Xor(p0, q0), Xor(p1, q1)), Xor(Xor(p2, q2), Xor(p3, q3)))
  {
    XorPairs(Xor(p0, p1), Xor(p2, p3), Xor(q0, q1), Xor(q2, q3));
    XorPairs(p0, p1, q0, q1);
    XorPairs(p2, p3, q2, q3);
  }

  /** Multiplying a column by one polynomial and then by another: each byte keeps its own contribution. */
  lemma ComposeDots(j0: bv8, j1: bv8, j2: bv8, j3: bv8, k0: bv8, k1: bv8, k2: bv8, k3: bv8,
                    a: bv8, b: bv8, c: bv8, d: bv8)
    ensures Dot(k0, k1, k2, k3, Dot(j0, j1, j2, j3, a, b, c, d), Dot(j0, j1, j2, j3, b, c, d, a),
                Dot(j0, j1, j2, j3, c, d, a, b), Dot(j0, j1, j2, j3, d, a, b, c)) ==
            Xor4(Twice(j0, j3, j2, j1, k0, k1, k2, k3, a), Twice(j1, j0, j3, j2, k0, k1, k2, k3, b),
                 Twice(j2, j1, j0, j3, k0, k1, k2, k3, c), Twice(j3, j2, j1, j0, k0, k1, k2, k3, d))
  {
    MulXor4(Mul(a, j0), Mul(b, j1), Mul(c, j2), Mul(d, j3), k0);
    MulXor4(Mul(b, j0), Mul(c, j1), Mul(d, j2), Mul(a, j3), k1);
    MulXor4(Mul(c, j0), Mul(d, j1), Mul(a, j2), Mul(b, j3), k2);
    MulXor4(Mul(d, j0), Mul(a, j1), Mul(b, j2), Mul(c, j3), k3);
    Rotate1(Mul(Mul(b, j0), k1), Mul(Mul(c, j1), k1), Mul(Mul(d, j2), k1), Mul(Mul(a, j3), k1));
    Rotate2(Mul(Mul(c, j0), k2), Mul(Mul(d, j1), k2), Mul(Mul(a, j2), k2), Mul(Mul(b, j3), k2));
    Rotate3(Mul(Mul(d, j0), k3), Mul(Mul(a, j1), k3), Mul(Mul(b, j2), k3), Mul(Mul(c, j3), k3));
    Transpose(Mul(Mul(a, j0), k0), Mul(Mul(b, j1), k0), Mul(Mul(c, j2), k0), Mul(Mul(d, j3), k0),
              Mul(Mul(a, j3), k1), Mul(Mul(b, j0), k1), Mul(Mul(c, j1), k1), Mul(Mul(d, j2), k1),
              Mul(Mul(a, j2), k2), Mul(Mul(b, j3), k2), Mul(Mul(c, j0), k2), Mul(Mul(d, j1), k2),
              Mul(Mul(a, j1), k3), Mul(Mul(b, j2), k3), Mul(Mul(c, j3), k3), Mul(Mul(d, j0), k3));
  }

  lemma Rotate1(a: bv8, b: bv8, c: bv8, d: bv8)
    ensures Xor4(a, b, c, d) == Xor4(d, a, b, c)
  {
    Rotate3(d, a, b, c);
  }

  lemma Rotate2(a: bv8, b: bv8, c: bv8, d: bv8)
    ensures Xor4(a, b, c, d) == Xor4(c, d, a, b)
  {
    XorComm(Xor(a, b), Xor(c, d));
  }

  lemma Rotate3(a: bv8, b: bv8, c: bv8, d: bv8)
    ensures Xor4(a, b, c, d) == Xor4(b, c, d, a)
  {
    XorComm(a, b);
    XorComm(c, d);
    XorPairs(b, a, d, c);
    XorPairs(b, d, a, c);
    XorComm(a, c);
    XorPairs(b, d, c, a);
  }

  // ---- products of the small coefficients ----

  /** Sums of coefficients act like sums of products. */
  lemma {:induction false} MulLowSum(x: bv8, p: bv8, r: bv8, t: bv8, n: bv8)
    requires t == Xor(p, r)
    ensures MulLow(x, t, n) == Xor(MulLow(x, p, n), MulLow(x, r, n))
    decreases n
  {
    if n == 0 {
      XorZero(0);
    } else {
      var y := Xtime(x);
      ShiftOfXor(p, r, t);
      MulLowSum(y, p >> 1, r >> 1, t >> 1, n - 1);
      MulLowStep(x, p, n);
      MulLowStep(x, r, n);
      MulLowStep(x, t, n);
      SumCases(x, MulLow(y, p >> 1, n - 1), MulLow(y, r >> 1, n - 1), p & 1 != 0, r & 1 != 0);
    }
  }

  // Adding two optional copies of x to u and v
  lemma SumCases(x: bv8, u: bv8, v: bv8, f: bool, g: bool)
    ensures Xor(if f then Xor(x, u) else u, if g then Xor(x, v) else v) ==
            if f != g then Xor(x, Xor(u, v)) else Xor(u, v)
  {
    if f && g {
      XorPairs(x, u, x, v);
      XorZero(x);
      XorZero(Xor(u, v));
    } else if f {
      XorAssoc(x, u, v);
    } else if g {
      XorAssoc(u, x, v);
      XorComm(u, x);
      XorAssoc(x, u, v);
    }
  }

  lemma ShiftOfXor(p: bv8, r: bv8, t: bv8)
    requires t == Xor(p, r)
    ensures t >> 1 == Xor(p >> 1, r >> 1)
    ensures t & 1 != 0 <==> (p & 1 != 0) != (r & 1 != 0)
  {
  }

  lemma {:induction false} XtimeMulLow(x: bv8, p: bv8, n: bv8)
    ensures Xtime(MulLow(x, p, n)) == MulLow(Xtime(x), p, n)
    decreases n
  {
    if n != 0 {
      MulLowStep(x, p, n);
      MulLowStep(Xtime(x), p, n);
      XtimeMulLow(Xtime(x), p >> 1, n - 1);
      XtimeXor(x, MulLow(Xtime(x), p >> 1, n - 1));
    }
  }

  // The high bits of the coefficient do not matter when they are zero.
  lemma {:induction false} MulLowShort(x: bv8, p: bv8, n: bv8)
    requires n < 8 && p >> n == 0
    ensures MulLow(x, p, n + 1) == MulLow(x, p, n)
    decreases n
  {
    MulLowStep(x, p, n + 1);
    if n != 0 {
      ShiftTwice(p, n);
      MulLowStep(x, p, n);
      MulLowShort(Xtime(x), p >> 1, n - 1);
    }
  }

  lemma ShiftTwice(p: bv8, n: bv8)
    requires 0 < n < 8
    ensures (p >> 1) >> (n - 1) == p >> n && n + 1 - 1 == n - 1 + 1
  {
  }

  lemma DoubleCoefficient(x: bv8, k: bv8)
    requires k & 0x80 == 0
    ensures Mul(Xtime(x), k) == Mul(x, k << 1)
  {
    MulLowStep(x, k << 1, 8);
    assert (k << 1) & 1 == 0 && (k << 1) >> 1 == k && k >> 7 == 0;
    MulLowShort(Xtime(x), k, 7);
  }

  lemma SmallFactors(a: bv8)
    ensures Mul(a, 0x01) == a && Mul(a, 0x02) == Xtime(a) && Mul(a, 0x03) == Xor(a, Xtime(a))
  {
  }

  // j times k as polynomials, for j of degree at most one
  ghost function Times(j: bv8, k: bv8): bv8 {
    if j == 1 then k else if j == 2 then k << 1 else Xor(k, k << 1)
  }

  /** Two multiplications are one multiplication by the product, in either order of the factors. */
  lemma MulMul(x: bv8, j: bv8, k: bv8)
    requires 1 <= j <= 3 && k & 0x80 == 0
    ensures Mul(Mul(x, j), k) == Mul(x, Times(j, k)) == Mul(Mul(x, k), j)
  {
    SmallFactors(x);
    SmallFactors(Mul(x, k));
    DoubleCoefficient(x, k);
    XtimeMulLow(x, k, 8);
    MulLowXor(x, Xtime(x), k, 8);
    MulLowSum(x, k, k << 1, Xor(k, k << 1), 8);
  }

  lemma SumOfCoefficients(x: bv8, p: bv8, q: bv8, r: bv8, s: bv8)
    ensures Xor4(Mul(x, p), Mul(x, q), Mul(x, r), Mul(x, s)) == Mul(x, Xor4(p, q, r, s))
  {
    MulLowSum(x, p, q, Xor(p, q), 8);
    MulLowSum(x, r, s, Xor(r, s), 8);
    MulLowSum(x, Xor(p, q), Xor(r, s), Xor4(p, q, r, s), 8);
  }

  /** What two passes make of one byte is a single product, whichever pass comes first. */
  lemma TwiceIsOnce(j0: bv8, j1: bv8, j2: bv8, j3: bv8, k0: bv8, k1: bv8, k2: bv8, k3: bv8, x: bv8)
    requires 1 <= j0 <= 3 && 1 <= j1 <= 3 && 1 <= j2 <= 3 && 1 <= j3 <= 3
    requires k0 & 0x80 == 0 && k1 & 0x80 == 0 && k2 & 0x80 == 0 && k3 & 0x80 == 0
    ensures Twice(j0, j1, j2, j3, k0, k1, k2, k3, x) ==
            Mul(x, Xor4(Times(j0, k0), Times(j1, k1), Times(j2, k2), Times(j3, k3)))
    ensures Twice(k0, k1, k2, k3, j0, j1, j2, j3, x) == Twice(j0, j1, j2, j3, k0, k1, k2, k3, x)
  {
    MulMul(x, j0, k0);
    MulMul(x, j1, k1);
    MulMul(x, j2, k2);
    MulMul(x, j3, k3);
    SumOfCoefficients(x, Times(j0, k0), Times(j1, k1), Times(j2, k2), Times(j3, k3));
  }

  // The product of the two polynomials is one, taken in either order.
  lemma PolynomialsAreInverse()
    ensures Xor4(Times(2, 0x0e), Times(1, 0x0b), Times(1, 0x0d), Times(3, 0x09)) == 1
    ensures Xor4(Times(3, 0x0e), Times(2, 0x0b), Times(1, 0x0d), Times(1, 0x09)) == 0
    ensures Xor4(Times(1, 0x0e), Times(3, 0x0b), Times(2, 0x0d), Times(1, 0x09)) == 0
    ensures Xor4(Times(1, 0x0e), Times(1, 0x0b), Times(3, 0x0d), Times(2, 0x09)) == 0
    ensures Xor4(Times(2, 0x0e), Times(3, 0x09), Times(1, 0x0d), Times(1, 0x0b)) == 1
    ensures Xor4(Times(2, 0x0b), Times(3, 0x0e), Times(1, 0x09), Times(1, 0x0d)) == 0
    ensures Xor4(Times(2, 0x0d), Times(3, 0x0b), Times(1, 0x0e), Times(1, 0x09)) == 0
    ensures Xor4(Times(2, 0x09), Times(3, 0x0d), Times(1, 0x0b), Times(1, 0x0e)) == 0
  {
  }

  lemma {:induction false} MulLowZero(x: bv8, n: bv8)
    ensures MulLow(x, 0, n) == 0
    decreases n
  {
    if n != 0 {
      MulLowStep(x, 0, n);
      MulLowZero(Xtime(x), n - 1);
    }
  }

  // Each byte contributes itself, the others cancel.
  lemma Contributions(a: bv8, b: bv8, c: bv8, d: bv8)
    ensures Twice(2, 1, 1, 3, 0x0e, 0x0b, 0x0d, 0x09, a) == a
    ensures Twice(3, 2, 1, 1, 0x0e, 0x0b, 0x0d, 0x09, b) == 0
    ensures Twice(1, 3, 2, 1, 0x0e, 0x0b, 0x0d, 0x09, c) == 0
    ensures Twice(1, 1, 3, 2, 0x0e, 0x0b, 0x0d, 0x09, d) == 0
  {
    PolynomialsAreInverse();
    TwiceIsOnce(2, 1, 1, 3, 0x0e, 0x0b, 0x0d, 0x09, a);
    TwiceIsOnce(3, 2, 1, 1, 0x0e, 0x0b, 0x0d, 0x09, b);
    TwiceIsOnce(1, 3, 2, 1, 0x0e, 0x0b, 0x0d, 0x09, c);
    TwiceIsOnce(1, 1, 3, 2, 0x0e, 0x0b, 0x0d, 0x09, d);
    SmallFactors(a);
    MulLowZero(b, 8);
    MulLowZero(c, 8);
    MulLowZero(d, 8);
  }

  lemma ContributionsReversed(a: bv8, b: bv8, c: bv8, d: bv8)
    ensures Twice(0x0e, 0x09, 0x0d, 0x0b, 2, 3, 1, 1, a) == a
    ensures Twice(0x0b, 0x0e, 0x09, 0x0d, 2, 3, 1, 1, b) == 0
    ensures Twice(0x0d, 0x0b, 0x0e, 0x09, 2, 3, 1, 1, c) == 0
    ensures Twice(0x09, 0x0d, 0x0b, 0x0e, 2, 3, 1, 1, d) == 0
  {
    PolynomialsAreInverse();
    TwiceIsOnce(2, 3, 1, 1, 0x0e, 0x09, 0x0d, 0x0b, a);
    TwiceIsOnce(2, 3, 1, 1, 0x0b, 0x0e, 0x09, 0x0d, b);
    TwiceIsOnce(2, 3, 1, 1, 0x0d, 0x0b, 0x0e, 0x09, c);
    TwiceIsOnce(2, 3, 1, 1, 0x09, 0x0d, 0x0b, 0x0e, d);
    SmallFactors(a);
    MulLowZero(b, 8);
    MulLowZero(c, 8);
    MulLowZero(d, 8);
  }

  lemma OnlyFirst(a: bv8)
    ensures Xor4(a, 0, 0, 0) == a
  {
    XorZero(0);
    XorZero(a);
  }

  /** The inverse polynomial undoes the mixing of a column. */
  lemma InvMixOfMix(a: bv8, b: bv8, c: bv8, d: bv8)
    ensures InvMixByte(MixByte(a, b, c, d), MixByte(b, c, d, a), MixByte(c, d, a, b), MixByte(d, a, b, c)) == a
  {
    ComposeDots(2, 3, 1, 1, 0x0e, 0x0b, 0x0d, 0x09, a, b, c, d);
    Contributions(a, b, c, d);
    OnlyFirst(a);
  }

  lemma MixOfInvMix(a: bv8, b: bv8, c: bv8, d: bv8)
    ensures MixByte(InvMixByte(a, b, c, d), InvMixByte(b, c, d, a), InvMixByte(c, d, a, b), InvMixByte(d, a, b, c)) == a
  {
    ComposeDots(0x0e, 0x0b, 0x0d, 0x09, 2, 3, 1, 1, a, b, c, d);
    ContributionsReversed(a, b, c, d);
    OnlyFirst(a);
  }

  lemma MixColumnInverse(x: Column)
    ensures InvMixColumn(MixColumn(x)) == x && MixColumn(InvMixColumn(x)) == x
  {
    InvMixOfMix(x.a, x.b, x.c, x.d);
    InvMixOfMix(x.b, x.c, x.d, x.a);
    InvMixOfMix(x.c, x.d, x.a, x.b);
    InvMixOfMix(x.d, x.a, x.b, x.c);
    MixOfInvMix(x.a, x.b, x.c, x.d);
    MixOfInvMix(x.b, x.c, x.d, x.a);
    MixOfInvMix(x.c, x.d, x.a, x.b);
    MixOfInvMix(x.d, x.a, x.b, x.c);
  }

  lemma MixColumnsInverse(s: Block)
    ensures InvMixColumnsOf(MixColumnsOf(s)) == s && MixColumnsOf(InvMixColumnsOf(s)) == s
  {
    MixColumnInverse(s.c0);
    MixColumnInverse(s.c1);
    MixColumnInverse(s.c2);
    MixColumnInverse(s.c3);
  }

  lemma Sum4(a: bv8, b: bv8, c: bv8, d: bv8)
    ensures a ^ b ^ c ^ d == Xor4(a, b, c, d)
  {
    XorAssoc(Xor(a, b), c, d);
  }

  ghost function ColumnAt(state: array<bv8>, c: int): Column
    requires 0 <= c && c + 4 <= state.Length
    reads state
  {
    Column(state[c], state[c + 1], state[c + 2], state[c + 3])
  }

  method MixColumns(state: array<bv8>)
    requires state.Length == 16
    modifies state
    ensures View(state) == MixColumnsOf(old(View(state)))
  {
    hide MixColumn;
    var c := 0;
    while c < 16
      invariant 0 <= c <= 16 && c % 4 == 0
      invariant forall k :: 0 <= k < c && k % 4 == 0 ==> ColumnAt(state, k) == MixColumn(old(ColumnAt(state, k)))
      invariant forall k :: c <= k < 16 && k % 4 == 0 ==> ColumnAt(state, k) == old(ColumnAt(state, k))
    {
      MixOneColumn(state, c);
      c := c + 4;
    }
    assert ColumnAt(state, 0) == View(state).c0 && ColumnAt(state, 4) == View(state).c1;
    assert ColumnAt(state, 8) == View(state).c2 && ColumnAt(state, 12) == View(state).c3;
  }

  method MixOneColumn(state: array<bv8>, c: nat)
    requires c + 4 <= state.Length
    modifies state
    ensures ColumnAt(state, c) == MixColumn(old(ColumnAt(state, c)))
    ensures forall j :: 0 <= j < state.Length && !(c <= j < c + 4) ==> state[j] == old(state[j])
  {
    hide MixByte, InvMixByte;
    var a0, a1, a2, a3 := state[c], state[c + 1], state[c + 2], state[c + 3];
    var b0 := MixedByte(a0, a1, a2, a3);
    var b1 := MixedByte(a1, a2, a3, a0);
    var b2 := MixedByte(a2, a3, a0, a1);
    var b3 := MixedByte(a3, a0, a1, a2);
    state[c] := b0;
    state[c + 1] := b1;
    state[c + 2] := b2;
    state[c + 3] := b3;
  }

  method MixedByte(a: bv8, b: bv8, c: bv8, d: bv8) returns (r: bv8)
    ensures r == MixByte(a, b, c, d)
  {
    var a2 := Gmul(a, 0x02);
    var b3 := Gmul(b, 0x03);
    r := a2 ^ b3 ^ c ^ d;
    SmallFactors(c);
    SmallFactors(d);
    Sum4(a2, b3, c, d);
  }

  method InvMixColumns(state: array<bv8>)
    requires state.Length == 16
    modifies state
    ensures View(state) == InvMixColumnsOf(old(View(state)))
  {
    hide InvMixColumn;
    var c := 0;
    while c < 16
      invariant 0 <= c <= 16 && c % 4 == 0
      invariant forall k :: 0 <= k < c && k % 4 == 0 ==> ColumnAt(state, k) == InvMixColumn(old(ColumnAt(state, k)))
      invariant forall k :: c <= k < 16 && k % 4 == 0 ==> ColumnAt(state, k) == old(ColumnAt(state, k))
    {
      InvMixOneColumn(state, c);
      c := c + 4;
    }
    assert ColumnAt(state, 0) == View(state).c0 && ColumnAt(state, 4) == View(state).c1;
    assert ColumnAt(state, 8) == View(state).c2 && ColumnAt(state, 12) == View(state).c3;
  }

  method InvMixOneColumn(state: array<bv8>, c: nat)
    requires c + 4 <= state.Length
    modifies state
    ensures ColumnAt(state, c) == InvMixColumn(old(ColumnAt(state, c)))
    ensures forall j :: 0 <= j < state.Length && !(c <= j < c + 4) ==> state[j] == old(state[j])
  {
    hide MixByte, InvMixByte;
    var a0, a1, a2, a3 := state[c], state[c + 1], state[c + 2], state[c + 3];
    var b0 := InvMixedByte(a0, a1, a2, a3);
    var b1 := InvMixedByte(a1, a2, a3, a0);
    var b2 := InvMixedByte(a2, a3, a0, a1);
    var b3 := InvMixedByte(a3, a0, a1, a2);
    state[c] := b0;
    state[c + 1] := b1;
    state[c + 2] := b2;
    state[c + 3] := b3;
  }

  method InvMixedByte(a: bv8, b: bv8, c: bv8, d: bv8) returns (r: bv8)
    ensures r == InvMixByte(a, b, c, d)
  {
    var ae := Gmul(a, 0x0e);
    var bb := Gmul(b, 0x0b);
    var cd := Gmul(c, 0x0d);
    var d9 := Gmul(d, 0x09);
    r := ae ^ bb ^ cd ^ d9;
    Sum4(ae, bb, cd, d9);
  }
}
