/** The RSA half of the MEGA login: multi-precision integers, modular exponentiation and the
    private-key operation by Chinese remaindering (next-frontend/app/lib/megaLogin.ts). */
module MegaRsa {
  import opened Basics
  import opened NumberTheory

  // What a call leaves behind: BigInt division by zero throws a RangeError.
  datatype Outcome<+T> = Returned(value: T) | RangeError

  // JavaScript's remainder truncates toward zero.
  function Rem(a: int, b: int): (r: int)
    requires b != 0
    ensures a >= 0 && b > 0 ==> r == a % b
  {
    var m := if b < 0 then -b else b;
    if a >= 0 then a % m else -((-a) % m)
  }

  // ---- bytes and integers ----

  ghost function Value(s: seq<Byte>): nat {
    if s == [] then 0 else Value(s[..|s| - 1]) * 256 + s[|s| - 1]
  }

  method BytesToBigInt(u: seq<Byte>) returns (n: nat)
    ensures n == Value(u)
  {
    n := 0;
    for i := 0 to |u|
      invariant n == Value(u[..i])
    {
      assert u[..i + 1][..i] == u[..i];
      n := n * 256 + u[i];
    }
    assert u[..|u|] == u;
  }

  type digit = x: int | 0 <= x < 16

  // n.toString(16), most significant digit first
  function Hex(n: nat): (h: seq<digit>)
    ensures |h| > 0
    ensures n > 0 ==> h[0] != 0
  {
    if n < 16 then [n] else Hex(n / 16) + [n % 16]
  }

  ghost function HexValue(h: seq<digit>): nat {
    if h == [] then 0 else HexValue(h[..|h| - 1]) * 16 + h[|h| - 1]
  }

  lemma {:induction false} HexIsPositional(n: nat)
    ensures HexValue(Hex(n)) == n
  {
    if n < 16 {
      assert HexValue([n]) == HexValue([n][..0]) * 16 + n;
    } else {
      HexIsPositional(n / 16);
      assert Hex(n)[..|Hex(n)| - 1] == Hex(n / 16);
    }
  }

  lemma {:induction false} LeadingZero(h: seq<digit>)
    ensures HexValue([0] + h) == HexValue(h)
  {
    if h == [] {
      assert ([0] + h)[..0] == [];
    } else {
      LeadingZero(h[..|h| - 1]);
      assert ([0] + h)[..|h|] == [0] + h[..|h| - 1];
    }
  }

  // The shortest big-endian form; zero takes one byte.
  ghost predicate Minimal(s: seq<Byte>) {
    s != [] && (|s| > 1 ==> s[0] != 0)
  }

  method BigIntToBytesMinimal(n: nat) returns (out: seq<Byte>)
    ensures Value(out) == n && Minimal(out)
  {
    if n == 0 {
      assert [0][..0] == [];
      return [0];
    }
    var hex := Hex(n);
    var padded := if |hex| % 2 != 0 then [0] + hex else hex;
    LeadingZero(hex);
    HexIsPositional(n);
    hide Hex, Value, HexValue;
    NoDigits();
    out := [];
    for i := 0 to |padded| / 2
      invariant |out| == i
      invariant Value(out) == HexValue(padded[..2 * i])
      invariant i > 0 ==> out[0] == padded[0] as int * 16 + padded[1]
    {
      var b: Byte := padded[2 * i] as int * 16 + padded[2 * i + 1];
      HexPair(padded, i);
      ValueSnoc(out, b);
      out := out + [b];
    }
    assert padded[..|padded|] == padded;
  }

  lemma NoDigits()
    ensures Value([]) == 0 && HexValue([]) == 0
  {
  }

  lemma HexPair(h: seq<digit>, i: nat)
    requires 2 * i + 2 <= |h|
    ensures HexValue(h[..2 * (i + 1)]) == HexValue(h[..2 * i]) * 256 + h[2 * i] as int * 16 + h[2 * i + 1]
  {
    assert h[..2 * i + 2][..2 * i + 1] == h[..2 * i + 1];
    assert h[..2 * i + 1][..2 * i] == h[..2 * i];
    assert HexValue(h[..2 * i + 1]) == HexValue(h[..2 * i]) * 16 + h[2 * i];
  }

  lemma ValueSnoc(s: seq<Byte>, b: Byte)
    ensures Value(s + [b]) == Value(s) * 256 + b
  {
    assert (s + [b])[..|s|] == s;
  }

  lemma {:induction false} ValueBound(s: seq<Byte>)
    ensures Value(s) < Pow(256, |s|)
  {
    if s != [] { ValueBound(s[..|s| - 1]); }
  }

  lemma {:induction false} ValueConcat(s: seq<Byte>, t: seq<Byte>)
    ensures Value(s + t) == Value(s) * Pow(256, |t|) + Value(t)
  {
    if t == [] {
      assert s + t == s;
    } else {
      var u := t[..|t| - 1];
      assert (s + t)[..|s + t| - 1] == s + u;
      ValueConcat(s, u);
      assert Value(s) * Pow(256, |t|) == Value(s) * Pow(256, |u|) * 256;
    }
  }

  lemma {:induction false} MinimalIsLarge(s: seq<Byte>)
    requires s != [] && s[0] != 0
    ensures Value(s) >= Pow(256, |s| - 1)
  {
    if |s| > 1 {
      MinimalIsLarge(s[..|s| - 1]);
    } else {
      assert s[..0] == [];
    }
  }

  lemma {:induction false} PowMonotone(e: nat, f: nat)
    requires e <= f
    ensures 0 < Pow(256, e) <= Pow(256, f)
    decreases f
  {
    if f > 0 { PowMonotone(if e < f then e else f - 1, f - 1); }
  }

  /** A number has one minimal form, so converting bytes to a number and back is lossless. */
  lemma {:induction false} MinimalFormUnique(s: seq<Byte>, t: seq<Byte>)
    requires Minimal(s) && Minimal(t) && Value(s) == Value(t)
    ensures s == t
  {
    if |s| != |t| {
      MinimalLengths(s, t);
      assert false;
    }
    SameLengthSameValue(s, t);
  }

  lemma MinimalLengths(s: seq<Byte>, t: seq<Byte>)
    requires Minimal(s) && Minimal(t) && Value(s) == Value(t)
    ensures |s| == |t|
  {
    if |s| < |t| {
      ValueBound(s); MinimalIsLarge(t); PowMonotone(|s|, |t| - 1);
    } else if |t| < |s| {
      ValueBound(t); MinimalIsLarge(s); PowMonotone(|t|, |s| - 1);
    }
  }

  lemma {:induction false} SameLengthSameValue(s: seq<Byte>, t: seq<Byte>)
    requires |s| == |t| && Value(s) == Value(t)
    ensures s == t
  {
    if s != [] {
      var n := |s| - 1;
      QuotientUnique(Value(s), 256, Value(s[..n]), s[n]);
      QuotientUnique(Value(t), 256, Value(t[..n]), t[n]);
      SameLengthSameValue(s[..n], t[..n]);
      assert s == s[..n] + [s[n]] && t == t[..n] + [t[n]];
    }
  }

  // ---- multi-precision integers: a two-byte bit count, then the big-endian bytes ----

  function ByteLength(hi: Byte, lo: Byte): nat {
    (hi * 256 + lo + 7) / 8
  }

  function ParseMpi(data: seq<Byte>): Option<(seq<Byte>, seq<Byte>)> {
    if |data| < 2 then None
    else
      var byteLen := ByteLength(data[0], data[1]);
      if |data| < 2 + byteLen then None
      else Some((data[2..2 + byteLen], data[2 + byteLen..]))
  }

  // The two bytes before the number hold, big end first, a count of bits that takes all of its bytes.
  ghost predicate IsMpi(m: seq<Byte>, v: seq<Byte>) {
    |m| == 2 + |v| && m[2..] == v && 8 * |v| - 8 < m[0] as int * 256 + m[1] <= 8 * |v|
  }

  // Bit lengths, and a number as it is written: its bit length in two bytes, then its bytes
  ghost predicate HasBits(n: nat, bits: nat) {
    if bits == 0 then n == 0 else Pow(2, bits - 1) <= n < Pow(2, bits)
  }

  ghost function Written(v: seq<Byte>, bits: nat): seq<Byte>
    requires bits < 65536
  {
    [bits / 256, bits % 256] + v
  }

  lemma {:induction false} PowTwoMonotone(e: nat, f: nat)
    requires e <= f
    ensures 0 < Pow(2, e) <= Pow(2, f)
    decreases f
  {
    if f > 0 { PowTwoMonotone(if e < f then e else f - 1, f - 1); }
  }

  lemma BytesAreBits(n: nat)
    ensures Pow(256, n) == Pow(2, 8 * n)
  {
    PowMultiple(2, 8, n);
    assert Pow(2, 8) == 256 by { assert Pow(2, 2) == 4; assert Pow(2, 4) == 16; assert Pow(2, 6) == 64; }
  }

  // A number without a leading zero byte takes just the bytes its bit length asks for.
  lemma BitsFill(v: seq<Byte>, bits: nat)
    requires HasBits(Value(v), bits) && (v != [] ==> v[0] != 0)
    ensures 8 * |v| - 8 < bits <= 8 * |v|
  {
    ValueBound(v);
    BytesAreBits(|v|);
    PowTwoMonotone(0, Max(0, bits - 1));
    if v != [] {
      MinimalIsLarge(v);
      BytesAreBits(|v| - 1);
      PowTwoMonotone(0, 8 * (|v| - 1));
      PowTwoMonotone(8 * |v|, Max(8 * |v|, bits - 1));
      PowTwoMonotone(Min(bits, 8 * |v| - 8), 8 * |v| - 8);
    }
  }

  lemma WrittenIsMpi(v: seq<Byte>, bits: nat)
    requires bits < 65536 && HasBits(Value(v), bits) && (v != [] ==> v[0] != 0)
    ensures IsMpi(Written(v, bits), v)
  {
    BitsFill(v, bits);
  }

  // Four numbers without leading zeros, with their bit lengths
  ghost predicate KeyNumbers(vs: seq<seq<Byte>>, bits: seq<nat>) {
    && |vs| == |bits| == 4
    && forall i :: 0 <= i < 4 ==> bits[i] < 65536 && HasBits(Value(vs[i]), bits[i]) && (vs[i] != [] ==> vs[i][0] != 0)
  }

  ghost function KeyBlob(vs: seq<seq<Byte>>, bits: seq<nat>): seq<Byte>
    requires KeyNumbers(vs, bits)
  {
    Written(vs[0], bits[0]) + Written(vs[1], bits[1]) + Written(vs[2], bits[2]) + Written(vs[3], bits[3])
  }

  /** A key written number by number, each behind its bit length in two bytes, is read back whatever follows it. */
  lemma KeyBlobReadBack(vs: seq<seq<Byte>>, bits: seq<nat>, pad: seq<Byte>)
    requires KeyNumbers(vs, bits)
    ensures ParseMpis(KeyBlob(vs, bits) + pad, 4) == Some(vs)
  {
    hide HasBits, IsMpi, ParseMpis, Value, Written;
    var ms := [Written(vs[0], bits[0]), Written(vs[1], bits[1]), Written(vs[2], bits[2]), Written(vs[3], bits[3])];
    forall i | 0 <= i < 4
      ensures IsMpi(ms[i], vs[i])
    {
      WrittenIsMpi(vs[i], bits[i]);
    }
    PrivKeyReadBack(vs, ms, pad);
    FlattenFour(ms[0], ms[1], ms[2], ms[3]);
  }

  lemma FlattenFour(a: seq<Byte>, b: seq<Byte>, c: seq<Byte>, d: seq<Byte>)
    ensures Flatten([a, b, c, d]) == a + b + c + d
  {
    assert [d][1..] == [] && Flatten([]) == [];
    assert Flatten([d]) == d + [] == d;
    assert [c, d][1..] == [d] && Flatten([c, d]) == c + d;
    assert [b, c, d][1..] == [c, d] && Flatten([b, c, d]) == b + (c + d);
    assert [a, b, c, d][1..] == [b, c, d] && Flatten([a, b, c, d]) == a + (b + (c + d));
    hide Flatten;
    assert a + (b + (c + d)) == a + b + c + d;
  }

  lemma ParseMpiPrefix(m: seq<Byte>, v: seq<Byte>, rest: seq<Byte>)
    requires IsMpi(m, v)
    ensures ParseMpi(m + rest) == Some((v, rest))
  {
    assert (m + rest)[2..2 + |v|] == m[2..];
    assert (m + rest)[2 + |v|..] == rest;
  }

  ghost function Flatten(ms: seq<seq<Byte>>): seq<Byte> {
    if ms == [] then [] else ms[0] + Flatten(ms[1..])
  }

  // k integers read one after the other
  ghost function ParseMpis(data: seq<Byte>, k: nat): Option<seq<seq<Byte>>> {
    if k == 0 then Some([])
    else
      match ParseMpi(data)
      case None => None
      case Some((v, rest)) =>
        match ParseMpis(rest, k - 1)
        case None => None
        case Some(vs) => Some([v] + vs)
  }

  method DecodePrivKey(privk: seq<Byte>) returns (r: Option<seq<seq<Byte>>>)
    ensures r == ParseMpis(privk, 4)
    ensures forall vs, bits, pad :: KeyNumbers(vs, bits) && privk == KeyBlob(vs, bits) + pad ==> r == Some(vs)
  {
    forall vs, bits, pad | KeyNumbers(vs, bits) && privk == KeyBlob(vs, bits) + pad
      ensures ParseMpis(privk, 4) == Some(vs)
    {
      KeyBlobReadBack(vs, bits, pad);
    }
    hide KeyNumbers, KeyBlob;
    var components: seq<seq<Byte>> := [];
    var data := privk;
    AppendNothing(ParseMpis(privk, 4));
    for i := 0 to 4
      invariant |components| == i
      invariant ParseMpis(privk, 4) == Append(components, ParseMpis(data, 4 - i))
    {
      AppendOne(components, data, 4 - i);
      if |data| < 2 { return None; }
      var mpi := ParseMpi(data);
      if mpi.None? { return None; }
      var (value, rest) := mpi.value;
      components := components + [value];
      data := rest;
    }
    assert components + [] == components;
    r := if |components| == 4 then Some(components) else None;
  }

  ghost function Append(xs: seq<seq<Byte>>, more: Option<seq<seq<Byte>>>): Option<seq<seq<Byte>>> {
    match more
    case None => None
    case Some(vs) => Some(xs + vs)
  }

  lemma AppendNothing(more: Option<seq<seq<Byte>>>)
    ensures Append([], more) == more
  {
    if more.Some? { assert [] + more.value == more.value; }
  }

  lemma AppendOne(xs: seq<seq<Byte>>, data: seq<Byte>, k: nat)
    requires k > 0
    ensures Append(xs, ParseMpis(data, k)) == match ParseMpi(data)
                                              case None => None
                                              case Some((v, rest)) => Append(xs + [v], ParseMpis(rest, k - 1))
  {
    if ParseMpi(data).Some? {
      var (v, rest) := ParseMpi(data).value;
      if ParseMpis(rest, k - 1).Some? {
        var vs := ParseMpis(rest, k - 1).value;
        assert xs + ([v] + vs) == xs + [v] + vs;
      }
    }
  }

  ghost predicate AreMpis(ms: seq<seq<Byte>>, vs: seq<seq<Byte>>) {
    |ms| == |vs| && forall i :: 0 <= i < |ms| ==> IsMpi(ms[i], vs[i])
  }

  /** A private-key blob, whatever padding follows it, is read back as exactly its integers. */
  lemma {:induction false} PrivKeyReadBack(vs: seq<seq<Byte>>, ms: seq<seq<Byte>>, pad: seq<Byte>)
    requires AreMpis(ms, vs)
    ensures ParseMpis(Flatten(ms) + pad, |vs|) == Some(vs)
  {
    if ms != [] {
      var rest := Flatten(ms[1..]) + pad;
      assert Flatten(ms) + pad == ms[0] + rest;
      ParseMpiPrefix(ms[0], vs[0], rest);
      PrivKeyReadBack(vs[1..], ms[1..], pad);
      assert [vs[0]] + vs[1..] == vs;
    }
  }

  /** Only such blobs are accepted. */
  lemma {:induction false} PrivKeyAccepted(data: seq<Byte>, k: nat) returns (ms: seq<seq<Byte>>, pad: seq<Byte>)
    requires ParseMpis(data, k).Some?
    ensures AreMpis(ms, ParseMpis(data, k).value) && |ms| == k && data == Flatten(ms) + pad
    decreases k
  {
    hide IsMpi, ParseMpi;
    if k == 0 {
      ms, pad := [], data;
    } else {
      var (v, rest) := ParseMpi(data).value;
      var m, after := MpiFound(data);
      var tail;
      tail, pad := PrivKeyAccepted(rest, k - 1);
      ms := [m] + tail;
      assert ms[1..] == tail;
      assert data == m + (Flatten(tail) + pad) == Flatten(ms) + pad;
    }
  }

  // ---- modular exponentiation ----

  method ModPow(base: nat, exp: nat, mod: nat) returns (r: Outcome<nat>)
    ensures mod == 0 ==> r == RangeError
    ensures mod > 0 ==> r == Returned(Pow(base, exp) % mod)
  {
    if mod == 1 { return Returned(0); }
    if mod == 0 { return RangeError; }
    var result: nat := 1;
    var b: nat := base % mod;
    var e := exp;
    LoopEntry(base, exp, mod);
    while e > 0
      invariant 0 <= result < mod
      invariant Remaining(result, b, e, mod, Pow(base, exp))
    {
      SquareStep(result, b, e, mod, Pow(base, exp));
      if e % 2 == 1 { result := (result * b) % mod; }
      b := (b * b) % mod;
      e := e / 2;
    }
    CongruentIffEqualMod(result, Pow(base, exp), mod);
    QuotientUnique(result, mod, 0, result);
    r := Returned(result);
  }

  // What square-and-multiply still has to do: result * b^e is the goal
  ghost predicate Remaining(result: nat, b: nat, e: nat, mod: nat, goal: int) {
    Congruent(result * Pow(b, e), goal, mod)
  }

  lemma LoopEntry(base: nat, exp: nat, mod: nat)
    requires mod > 0
    ensures Remaining(1, base % mod, exp, mod, Pow(base, exp))
  {
    CongruentMod(base, mod);
    CongruentPow(base % mod, base, exp, mod);
  }

  /** One round of square-and-multiply keeps the goal. */
  lemma SquareStep(result: nat, b: nat, e: nat, mod: nat, goal: int)
    requires mod > 0 && e > 0 && Remaining(result, b, e, mod, goal)
    ensures Remaining(if e % 2 == 1 then result * b % mod else result, b * b % mod, e / 2, mod, goal)
  {
    var h := e / 2;
    var odd := if e % 2 == 1 then b else 1;
    CongruentMod(b * b, mod);
    CongruentPow(b * b % mod, b * b, h, mod);
    PowSquare(b, h);
    assert Pow(b, e) == odd * Pow(b, 2 * h);
    var next := if e % 2 == 1 then result * b % mod else result;
    CongruentRefl(result, mod);
    CongruentMod(result * b, mod);
    assert Congruent(next, result * odd, mod);
    CongruentMul(next, result * odd, Pow(b * b % mod, h), Pow(b, 2 * h), mod);
    assert result * odd * Pow(b, 2 * h) == result * (odd * Pow(b, 2 * h));
    CongruentTrans(next * Pow(b * b % mod, h), result * Pow(b, e), goal, mod);
  }

  // ---- the private-key operation ----

  // The value the Chinese remaindering computes from c, for moduli that do not throw
  ghost function CrtPlain(c: nat, p: nat, q: nat, d: nat, u: nat): nat
    requires p >= 2 && q >= 2
  {
    Recombine(HalfPower(c, d, p), HalfPower(c, d, q), p, q, u)
  }

  // The exponentiation modulo one prime, with both operands reduced
  ghost function HalfPower(c: nat, d: nat, r: nat): nat
    requires r >= 2
  {
    Pow(c % r, d % (r - 1)) % r
  }

  // The multiple of p that moves m1 onto the residue m2; the code takes one branch per sign
  function Factor(m1: nat, m2: nat, q: nat, u: nat): (t: nat)
    requires q > 0
  {
    if m2 - m1 < 0 then
      q - Rem(Rem(Rem(Rem(m1 - m2, q) + q, q) * u, q), q)
    else
      Rem((m2 - m1) * u, q)
  }

  ghost function Recombine(m1: nat, m2: nat, p: nat, q: nat, u: nat): (r: nat)
    requires p >= 2 && q >= 2
  {
    var t := Factor(m1, m2, q, u);
    (t * p + m1) % (p * q)
  }

  method CrtDecryptToSid(c: nat, p: nat, q: nat, d: nat, u: nat) returns (r: Outcome<seq<Byte>>)
    ensures r.RangeError? <==> p < 2 || q < 2
    ensures r.Returned? ==> Minimal(r.value) && Value(r.value) == CrtPlain(c, p, q, d, u)
  {
    if p < 2 || q < 2 { return RangeError; }
    var r1 := ModPow(c % p, d % (p - 1), p);
    var r2 := ModPow(c % q, d % (q - 1), q);
    var m1: nat, m2: nat := r1.value, r2.value;
    var t := Factor(m1, m2, q, u);
    var n := p * q;
    var plain: nat := (t * p + m1) % n;
    var bytes := BigIntToBytesMinimal(plain);
    r := Returned(bytes);
  }

  // Both sign branches yield (m2 - m1) * u modulo q.
  lemma FactorResidue(m1: nat, m2: nat, q: nat, u: nat)
    requires q >= 2
    ensures Congruent(Factor(m1, m2, q, u), (m2 - m1) * u, q)
  {
    if m2 < m1 {
      var s := (m1 - m2) % q;
      assert (s + q) % q == s by { QuotientUnique(s + q, q, 1, s); }
      var t := s * u % q;
      assert t % q == t by { QuotientUnique(t, q, 0, t); }
      CongruentMod(s * u, q);
      CongruentMod(m1 - m2, q);
      CongruentRefl(u, q);
      CongruentMul(s, m1 - m2, u, u, q);
      CongruentTrans(t, s * u, (m1 - m2) * u, q);
      DividesBy(1, q, q);
      DividesSum(q, q, t - (m1 - m2) * u);
      assert q - (t - (m1 - m2) * u) == (q - t) - (m2 - m1) * u;
    } else {
      CongruentMod((m2 - m1) * u, q);
    }
  }

  /** Recombination returns the one number below p*q with the two given remainders. */
  lemma RecombineResidues(m1: nat, m2: nat, p: nat, q: nat, u: nat)
    requires p >= 2 && q >= 2 && u * p % q == 1
    ensures Recombine(m1, m2, p, q, u) < p * q
    ensures Congruent(Recombine(m1, m2, p, q, u), m1, p) && Congruent(Recombine(m1, m2, p, q, u), m2, q)
  {
    var t := Factor(m1, m2, q, u);
    var x, n := t * p + m1, p * q;
    CongruentMod(x, n);
    FactorCongruent(x % n, x, p, q);
    DividesBy(t, p, x - m1);
    CongruentTrans(x % n, x, m1, p);
    FactorTimesModulus(t, m2 - m1, p, q, u) by { FactorResidue(m1, m2, q, u); }
    CongruentRefl(m1, q);
    CongruentAdd(t * p, m2 - m1, m1, m1, q);
    CongruentTrans(x % n, x, m2, q);
  }

  lemma FactorTimesModulus(t: nat, delta: int, p: nat, q: nat, u: nat)
    requires q >= 2 && u * p % q == 1 && Congruent(t, delta * u, q)
    ensures Congruent(t * p, delta, q)
  {
    CongruentRefl(p, q);
    CongruentMul(t, delta * u, p, p, q);
    CongruentMod(u * p, q);
    CongruentRefl(delta, q);
    CongruentMul(delta, delta, u * p, 1, q);
    assert delta * u * p == delta * (u * p);
    CongruentTrans(t * p, delta * (u * p), delta, q);
  }

  lemma FactorCongruent(a: int, b: int, p: int, q: int)
    requires Congruent(a, b, p * q)
    ensures Congruent(a, b, p) && Congruent(a, b, q)
  {
    var k :| Multiple(k, p * q, a - b);
    assert k * (p * q) == k * q * p == k * p * q;
    DividesBy(k * q, p, a - b);
    DividesBy(k * p, q, a - b);
  }

  // Reducing the exponent modulo r-1 turns 0^d into 0^0 = 1.
  predicate Lost(c: nat, d: nat, r: nat)
    requires r >= 2
  {
    c % r == 0 && d > 0 && d % (r - 1) == 0
  }

  /** For one prime, the shortened exponentiation is right exactly when the input is not lost. */
  lemma ResidueCorrect(c: nat, d: nat, r: nat)
    requires Prime(r)
    ensures Congruent(HalfPower(c, d, r), Pow(c, d), r) <==> !Lost(c, d, r)
  {
    if c % r != 0 {
      ResidueOfUnit(c, d, r);
    } else {
      ResidueOfMultiple(c, d, r);
    }
  }

  lemma ResidueOfUnit(c: nat, d: nat, r: nat)
    requires Prime(r) && c % r != 0
    ensures Congruent(HalfPower(c, d, r), Pow(c, d), r)
  {
    var a := c % r;
    var x := Pow(a, d % (r - 1));
    CongruentMod(c, r);
    CongruentPow(a, c, d, r);
    CongruentMod(x, r);
    DividesMod(r, a);
    QuotientUnique(a, r, 0, a);
    ReduceExponent(r, a, d);
    CongruentTrans(x % r, x, Pow(a, d), r);
    CongruentTrans(x % r, Pow(a, d), Pow(c, d), r);
  }

  lemma ResidueOfMultiple(c: nat, d: nat, r: nat)
    requires Prime(r) && c % r == 0
    ensures Congruent(HalfPower(c, d, r), Pow(c, d), r) <==> !Lost(c, d, r)
  {
    var e := d % (r - 1);
    PowZero(e);
    PowZero(d);
    CongruentMod(c, r);
    CongruentPow(c % r, c, d, r);
    CongruentIffEqualMod(Pow(0, d), Pow(c, d), r);
    CongruentIffEqualMod(Pow(0, e) % r, Pow(c, d), r);
    QuotientUnique(0, r, 0, 0);
    QuotientUnique(1, r, 0, 1);
    if d == 0 { QuotientUnique(0, r - 1, 0, 0); }
  }

  /** The private-key operation returns c^d mod p*q exactly when neither prime loses c. */
  lemma CrtIsModularPower(c: nat, p: nat, q: nat, d: nat, u: nat)
    requires Prime(p) && Prime(q) && p != q && u * p % q == 1
    requires p * q > 0
    ensures CrtPlain(c, p, q, d, u) == Pow(c, d) % (p * q) <==> !Lost(c, d, p) && !Lost(c, d, q)
  {
    var m1, m2 := HalfPower(c, d, p), HalfPower(c, d, q);
    var r, x := CrtPlain(c, p, q, d, u), Pow(c, d);
    RecombineResidues(m1, m2, p, q, u);
    ResidueCorrect(c, d, p);
    ResidueCorrect(c, d, q);
    SameResidue(r, m1, x, p);
    SameResidue(r, m2, x, q);
    EqualsBothResidues(r, x, p, q);
  }

  /** Being x modulo p*q is the same as being congruent to x modulo both primes. */
  lemma EqualsBothResidues(r: nat, x: int, p: nat, q: nat)
    requires Prime(p) && Prime(q) && p != q && r < p * q
    ensures r == x % (p * q) <==> Congruent(r, x, p) && Congruent(r, x, q)
  {
    var n := p * q;
    CongruentIffEqualMod(r, x, n);
    QuotientUnique(r, n, 0, r);
    if Congruent(r, x, p) && Congruent(r, x, q) {
      CoprimeProductDivides(p, q, r - x);
    }
    if Congruent(r, x, n) {
      FactorCongruent(r, x, p, q);
    }
  }

  lemma SameResidue(a: int, b: int, x: int, m: int)
    requires Congruent(a, b, m)
    ensures Congruent(a, x, m) <==> Congruent(b, x, m)
  {
    CongruentSym(a, b, m);
    if Congruent(a, x, m) { CongruentTrans(b, a, x, m); }
    if Congruent(b, x, m) { CongruentTrans(a, b, x, m); }
  }

  /** A ciphertext divisible by p, with p-1 dividing d: 3^2 mod 15 is 9, the operation gives 4. */
  lemma CrtLosesMultipleOfPrime()
    ensures Prime(3) && Prime(5) && 2 * 3 % 5 == 1
    ensures CrtPlain(3, 3, 5, 2, 2) == 4 && Pow(3, 2) % 15 == 9
  {
    assert Pow(3, 1) == 3 * Pow(3, 0) == 3;
    assert HalfPower(3, 2, 3) == 1;
    assert HalfPower(3, 2, 5) == 4;
    assert Factor(1, 4, 5, 2) == 1;
  }

  // ---- decryption undoes encryption ----

  lemma {:induction false} PrimeDividesPower(p: int, a: int, e: nat)
    requires Prime(p) && Divides(p, Pow(a, e))
    ensures Divides(p, a)
  {
    if e == 0 {
      DividesMod(p, 1);
    } else {
      Euclid(p, a, Pow(a, e - 1));
      if !Divides(p, a) { PrimeDividesPower(p, a, e - 1); }
    }
  }

  lemma PowerModPrime(m: nat, e: nat, d: nat, p: nat)
    requires Prime(p) && e * d % (p - 1) == 1 % (p - 1) && e * d > 0
    ensures Congruent(Pow(Pow(m, e), d), m, p)
  {
    PowMultiple(m, e, d);
    DividesMod(p, m);
    if Divides(p, m) {
      DividesProduct(p, m, Pow(m, e * d - 1));
      DividesSum(p, Pow(m, e * d), m);
    } else {
      ReduceExponent(p, m, e * d);
      ReduceExponent(p, m, 1);
      var r := e * d % (p - 1);
      CongruentSym(Pow(m, r), Pow(m, e * d), p);
      assert Pow(m, 1) == m;
      CongruentTrans(Pow(m, e * d), Pow(m, r), m, p);
    }
  }

  // A key pair in the sense of section 3 of RFC 8017, with odd primes
  ghost predicate KeyPair(p: nat, q: nat, e: nat, d: nat, u: nat) {
    && Prime(p) && Prime(q) && p != q && p > 2 && q > 2
    && u * p % q == 1
    && e * d > 0 && e * d % (p - 1) == 1 && e * d % (q - 1) == 1
  }

  lemma NeverLost(c: nat, e: nat, d: nat, r: nat)
    requires r > 2 && e * d % (r - 1) == 1
    ensures !Lost(c, d, r)
  {
    if d % (r - 1) == 0 {
      var k := d / (r - 1);
      assert e * d == (e * k) * (r - 1);
      QuotientUnique(e * d, r - 1, e * k, 0);
    }
  }

  /** The operation recovers every message below the modulus from its encryption m^e mod p*q. */
  lemma DecryptUndoesEncrypt(m: nat, p: nat, q: nat, e: nat, d: nat, u: nat)
    requires KeyPair(p, q, e, d, u) && m < p * q
    ensures CrtPlain(Pow(m, e) % (p * q), p, q, d, u) == m
  {
    var n := p * q;
    var c := Pow(m, e) % n;
    NeverLost(c, e, d, p);
    NeverLost(c, e, d, q);
    CrtIsModularPower(c, p, q, d, u);
    CongruentMod(Pow(m, e), n);
    CongruentPow(c, Pow(m, e), d, n);
    QuotientUnique(1, p - 1, 0, 1);
    QuotientUnique(1, q - 1, 0, 1);
    PowerModPrime(m, e, d, p);
    PowerModPrime(m, e, d, q);
    CoprimeProductDivides(p, q, Pow(Pow(m, e), d) - m);
    CongruentTrans(Pow(c, d), Pow(Pow(m, e), d), m, n);
    CongruentIffEqualMod(Pow(c, d), m, n);
    QuotientUnique(m, n, 0, m);
  }

  // ---- reading the ciphertext ----

  // Bytes needed for the modulus, counted on its hexadecimal digits
  function ModulusBytes(n: nat): nat {
    (|Hex(n)| + 1) / 2
  }

  function CiphertextBytes(ciphertext: seq<Byte>, modulusBytes: nat): seq<Byte> {
    match ParseMpi(ciphertext)
    case Some((cBytes, _)) => if |cBytes| == modulusBytes then cBytes else ciphertext
    case None => ciphertext
  }

  method DecryptRsa(ciphertext: seq<Byte>, privkey: seq<seq<Byte>>) returns (r: Outcome<seq<Byte>>)
    requires |privkey| == 4
    ensures var p, q, d, u := Value(privkey[0]), Value(privkey[1]), Value(privkey[2]), Value(privkey[3]);
            && (r.RangeError? <==> p < 2 || q < 2)
            && (r.Returned? ==>
                  && Minimal(r.value)
                  && p * q > 0
                  && Value(r.value) == CrtPlain(Value(CiphertextBytes(ciphertext, ModulusBytes(p * q))), p, q, d, u))
  {
    var p := BytesToBigInt(privkey[0]);
    var q := BytesToBigInt(privkey[1]);
    var d := BytesToBigInt(privkey[2]);
    var u := BytesToBigInt(privkey[3]);
    var n: nat := p * q;
    var cInt := BytesToBigInt(CiphertextBytes(ciphertext, ModulusBytes(n)));
    r := CrtDecryptToSid(cInt, p, q, d, u);
  }

  lemma {:induction false} HexBounds(n: nat)
    requires n > 0
    ensures Pow(16, |Hex(n)| - 1) <= n < Pow(16, |Hex(n)|)
  {
    if n >= 16 {
      HexBounds(n / 16);
    }
  }

  lemma {:induction false} PowSixteen(e: nat)
    ensures Pow(16, 2 * e) == Pow(256, e) && 0 < Pow(16, e) <= Pow(16, e + 1)
  {
    PowSquare(16, e);
    if e > 0 { PowSixteen(e - 1); }
  }

  /** The width of the modulus is the least number of bytes it fits in. */
  lemma ModulusWidth(n: nat)
    requires n > 0
    ensures ModulusBytes(n) > 0 && Pow(256, ModulusBytes(n) - 1) <= n < Pow(256, ModulusBytes(n))
  {
    HexBounds(n);
    var h, k := |Hex(n)|, ModulusBytes(n);
    PowSixteen(k);
    PowSixteen(k - 1);
    PowSixteen(h);
    PowSixteen(h - 1);
  }

  /** A ciphertext that starts with an encoded number of just the width of the modulus is read as that number, every
      other one as it stands. */
  lemma CiphertextWhich(ciphertext: seq<Byte>, modulusBytes: nat)
    ensures forall m, v, rest :: ciphertext == m + rest && IsMpi(m, v) && |v| == modulusBytes ==>
              CiphertextBytes(ciphertext, modulusBytes) == v
    ensures (forall m, v, rest :: ciphertext == m + rest && IsMpi(m, v) ==> |v| != modulusBytes) ==>
              CiphertextBytes(ciphertext, modulusBytes) == ciphertext
  {
    hide IsMpi, ParseMpi;
    forall m, v, rest | ciphertext == m + rest && IsMpi(m, v)
      ensures ParseMpi(ciphertext) == Some((v, rest))
    {
      ParseMpiPrefix(m, v, rest);
    }
    if ParseMpi(ciphertext).Some? {
      var m, rest := MpiFound(ciphertext);
    }
  }

  lemma MpiFound(data: seq<Byte>) returns (m: seq<Byte>, rest: seq<Byte>)
    requires ParseMpi(data).Some?
    ensures data == m + rest && IsMpi(m, ParseMpi(data).value.0) && rest == ParseMpi(data).value.1
  {
    var v := ParseMpi(data).value.0;
    m, rest := data[..2 + |v|], data[2 + |v|..];
  }

  lemma CiphertextChosen(mpi: seq<Byte>, v: seq<Byte>, modulusBytes: nat)
    requires IsMpi(mpi, v)
    ensures CiphertextBytes(mpi, modulusBytes) == if |v| == modulusBytes then v else mpi
  {
    ParseMpiPrefix(mpi, v, []);
    assert mpi + [] == mpi;
  }

  lemma HeaderAdds(head: seq<Byte>, v: seq<Byte>)
    requires |head| == 2
    ensures Value(head + v) == Value(v) <==> head[0] == 0 && head[1] == 0
  {
    hide Value;
    ValueConcat(head, v);
    TwoByteValue(head);
    PowMonotone(0, |v|);
    MultipleBound(Value(head), Pow(256, |v|));
  }

  /** An encoded ciphertext is read as its own value exactly when it fills the modulus width or is
      an empty zero: a shorter one is read together with its length header. */
  lemma CiphertextRead(mpi: seq<Byte>, v: seq<Byte>, modulusBytes: nat)
    requires IsMpi(mpi, v)
    ensures Value(CiphertextBytes(mpi, modulusBytes)) == Value(v) <==>
            |v| == modulusBytes || (mpi[0] == 0 && mpi[1] == 0)
  {
    hide Value, CiphertextBytes;
    CiphertextChosen(mpi, v, modulusBytes);
    HeaderAdds(mpi[..2], v);
    assert mpi == mpi[..2] + v;
  }

  lemma TwoByteValue(s: seq<Byte>)
    requires |s| == 2
    ensures Value(s) == s[0] as int * 256 + s[1]
  {
    ByteValue(s[..1]);
  }

  lemma ByteValue(s: seq<Byte>)
    requires |s| == 1
    ensures Value(s) == s[0]
  {
    assert s[..0] == [];
  }
}
