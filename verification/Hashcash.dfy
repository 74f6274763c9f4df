/** The proof of work of the MEGA login (next-frontend/app/lib/megaLogin.ts, solveHashcash). The first word of the
    SHA-256 digest is a function of the buffer. */
module Hashcash {
  import opened Basics
  import opened NumberTheory

  const NONCES := 4294967296

  // The four bytes read as a big-endian number, and the other way round
  ghost function NonceInt(s: seq<Byte>): (n: nat)
    requires |s| == 4
    ensures n < NONCES
  {
    ((s[0] as int * 256 + s[1]) * 256 + s[2]) * 256 + s[3]
  }

  ghost function NonceBytes(n: nat): (s: seq<Byte>)
    ensures |s| == 4
  {
    [n / 256 / 256 / 256 % 256, n / 256 / 256 % 256, n / 256 % 256, n % 256]
  }

  /** Every number below 2^32 is the value of exactly one nonce. */
  lemma NonceOnce(n: nat, s: seq<Byte>)
    requires n < NONCES && |s| == 4
    ensures NonceInt(s) == n <==> s == NonceBytes(n)
  {
    Digits(n);
    if NonceInt(s) == n {
      DigitsUnique(s, NonceBytes(n));
    }
  }

  lemma Digits(n: nat)
    requires n < NONCES
    ensures NonceInt(NonceBytes(n)) == n
  {
    var a, b := n / 256, n / 256 / 256;
    assert n == a * 256 + n % 256 && a == b * 256 + a % 256 && b == b / 256 * 256 + b % 256;
    assert b / 256 < 256;
  }

  lemma LastDigit(q: int, r: Byte, p: int, t: Byte)
    requires q * 256 + r == p * 256 + t
    ensures q == p && r == t
  {
  }

  lemma DigitsUnique(s: seq<Byte>, t: seq<Byte>)
    requires |s| == |t| == 4 && NonceInt(s) == NonceInt(t)
    ensures s == t
  {
    LastDigit((s[0] as int * 256 + s[1]) * 256 + s[2], s[3], (t[0] as int * 256 + t[1]) * 256 + t[2], t[3]);
    LastDigit(s[0] as int * 256 + s[1], s[2], t[0] as int * 256 + t[1], t[2]);
    LastDigit(s[0], s[1], t[0], t[1]);
  }

  // What one in place j is worth
  ghost function Weight(j: int): nat
    requires -1 <= j <= 3
  {
    if j == 3 then 1 else if j == 2 then 256 else if j == 1 then 65536 else if j == 0 then 16777216 else NONCES
  }

  lemma DigitSet(s: seq<Byte>, j: nat, v: Byte)
    requires |s| == 4 && j < 4
    ensures NonceInt(s[j := v]) == NonceInt(s) + (v - s[j]) * Weight(j)
    ensures j > 0 ==> Weight(j - 1) == 256 * Weight(j)
    ensures Weight(-1) == 256 * Weight(0)
  {
  }

  /** The counter at the head of the buffer goes one up, from the last nonce back to the first. */
  method IncrementNonce(buffer: array<Byte>)
    requires buffer.Length >= 4
    modifies buffer
    ensures NonceInt(buffer[..4]) == (NonceInt(old(buffer[..4])) + 1) % NONCES
    ensures buffer[4..] == old(buffer[4..])
  {
    var j := 3;
    var carry := true;
    hide NonceInt, Weight;
    WeightLast();
    while j >= 0 && carry
      invariant -1 <= j <= 3
      invariant buffer[4..] == old(buffer[4..])
      invariant NonceInt(buffer[..4]) + (if carry then Weight(j) else 0) == NonceInt(old(buffer[..4])) + 1
    {
      ghost var before := buffer[..4];
      var value := buffer[j] as int + 1;
      DigitSet(before, j, value % 256);
      buffer[j] := value % 256;
      assert buffer[..4] == before[j := value % 256];
      if value % 256 != 0 { carry := false; }
      j := j - 1;
    }
  }

  lemma WeightLast()
    ensures Weight(3) == 1 && Weight(-1) == NONCES
  {
  }

  function Power(n: nat): nat {
    if n == 0 then 1 else 2 * Power(n - 1)
  }

  // easiness holds a mantissa in its last six bits and an exponent above them.
  function Threshold(easiness: nat): nat {
    (easiness % 64 * 2 + 1) * Power(easiness / 64 * 7 + 3)
  }

  lemma {:induction false} PowerMore(n: nat, k: nat)
    ensures Power(n + k) == Power(n) * Power(k)
  {
    if k > 0 {
      PowerMore(n, k - 1);
    }
  }

  lemma ThresholdIs(e: nat, m: nat)
    requires m < 64
    ensures Threshold(64 * e + m) == (2 * m + 1) * Power(7 * e + 3)
  {
    hide Power;
    assert (64 * e + m) / 64 == e && (64 * e + m) % 64 == m;
  }

  /** The threshold starts at 8. Within 64 easinesses every step adds twice what it was at the first of them, and after
      64 it is 128 times as high. */
  lemma ThresholdSteps(e: nat, m: nat)
    requires m < 63
    ensures Threshold(0) == 8
    ensures Threshold(64 * e + m + 1) == Threshold(64 * e + m) + 2 * Threshold(64 * e)
    ensures Threshold(64 * (e + 1)) == 128 * Threshold(64 * e)
  {
    hide Threshold, Power;
    SmallPowers();
    ThresholdIs(0, 0);
    ThresholdIs(e, 0);
    ThresholdIs(e, m);
    ThresholdIs(e, m + 1);
    ThresholdIs(e + 1, 0);
    PowerMore(7 * e + 3, 7);
    OddStep(m, Power(7 * e + 3));
  }

  lemma SmallPowers()
    ensures Power(3) == 8 && Power(7) == 128
  {
    assert Power(2) == 4;
    assert Power(4) == 16;
    assert Power(6) == 64;
  }

  lemma OddStep(m: nat, p: nat)
    ensures (2 * (m + 1) + 1) * p == (2 * m + 1) * p + 2 * p
  {
  }

  /** The buffer behind the nonce is the token over and over. */
  lemma {:induction false} RepeatAt(token: seq<Byte>, n: nat, i: nat)
    requires n > 0 && i < n * |token|
    ensures token != [] && Repeat(token, n)[i] == token[i % |token|]
  {
    var k: int := (n - 1) * |token|;
    if i < k {
      RepeatAt(token, n - 1, i);
    } else {
      var r: int := i - k;
      assert n * |token| == k + |token|;
      QuotientUnique(i, |token|, n - 1, r);
    }
  }

  function Repeat(token: seq<Byte>, n: nat): (r: seq<Byte>)
    ensures |r| == n * |token|
  {
    if n == 0 then [] else Repeat(token, n - 1) + token
  }

  // Whether the nonce solves the challenge
  ghost predicate Solves(head: seq<Byte> -> nat, nonce: seq<Byte>, payload: seq<Byte>, threshold: nat) {
    head(nonce + payload) <= threshold
  }

  // No smaller nonce does.
  ghost predicate NoneBefore(head: seq<Byte> -> nat, nonce: seq<Byte>, payload: seq<Byte>, threshold: nat)
    requires |nonce| == 4
  {
    forall other :: |other| == 4 && NonceInt(other) < NonceInt(nonce) ==> !Solves(head, other, payload, threshold)
  }

  // Four zeros and the token over and over
  method FirstBuffer(payload: seq<Byte>) returns (buffer: array<Byte>)
    ensures fresh(buffer) && buffer[..] == [0, 0, 0, 0] + payload
    ensures buffer.Length == 4 + |payload| && buffer[..4] == [0, 0, 0, 0] && buffer[4..] == payload
  {
    buffer := new Byte[4 + |payload|](i => 0);
    for i := 0 to |payload|
      invariant buffer[..4] == [0, 0, 0, 0] && buffer[4..4 + i] == payload[..i]
    {
      buffer[4 + i] := payload[i];
    }
  }

  lemma ZeroFirst(head: seq<Byte> -> nat, s: seq<Byte>, payload: seq<Byte>, threshold: nat)
    requires s == [0, 0, 0, 0]
    ensures NonceInt(s) == 0 && NoneBefore(head, s, payload, threshold)
  {
  }

  /** The search returns the first nonce that solves the challenge, if there is one at all; without one it would go
      round for ever, so some solution is asked for. */
  method SolveHashcash(token: seq<Byte>, replications: nat, easiness: nat, head: seq<Byte> -> nat, ghost solution: nat)
    returns (nonce: seq<Byte>)
    requires solution < NONCES
    requires Solves(head, NonceBytes(solution), Repeat(token, replications), Threshold(easiness))
    ensures |nonce| == 4 && head(nonce + Repeat(token, replications)) <= Threshold(easiness)
    ensures forall other :: |other| == 4 && NonceInt(other) < NonceInt(nonce) ==>
              head(other + Repeat(token, replications)) > Threshold(easiness)
  {
    hide NonceInt, NonceBytes, NoneBefore, Threshold, Repeat;
    var payload, threshold := Repeat(token, replications), Threshold(easiness);
    var buffer := FirstBuffer(payload);
    ZeroFirst(head, buffer[..4], payload, threshold);
    var found := head(buffer[..]) <= threshold;
    assert buffer[..] == buffer[..4] + payload;
    while !found
      invariant buffer[4..] == payload && found == Solves(head, buffer[..4], payload, threshold)
      invariant NonceInt(buffer[..4]) <= solution && NoneBefore(head, buffer[..4], payload, threshold)
      decreases solution - NonceInt(buffer[..4]), !found
    {
      ghost var before := buffer[..4];
      NonceOnce(solution, before);
      IncrementNonce(buffer);
      NoneBeforeNext(head, before, buffer[..4], payload, threshold);
      assert buffer[..] == buffer[..4] + payload;
      found := head(buffer[..]) <= threshold;
    }
    nonce := buffer[..4];
    FirstMeans(head, nonce, payload, threshold);
  }

  lemma FirstMeans(head: seq<Byte> -> nat, nonce: seq<Byte>, payload: seq<Byte>, threshold: nat)
    requires |nonce| == 4 && NoneBefore(head, nonce, payload, threshold)
    ensures forall other :: |other| == 4 && NonceInt(other) < NonceInt(nonce) ==> head(other + payload) > threshold
  {
    hide NonceInt;
    forall other | |other| == 4 && NonceInt(other) < NonceInt(nonce)
      ensures head(other + payload) > threshold
    {
      assert !Solves(head, other, payload, threshold);
    }
  }

  lemma NoneBeforeNext(head: seq<Byte> -> nat, s: seq<Byte>, t: seq<Byte>, payload: seq<Byte>, threshold: nat)
    requires |s| == |t| == 4 && NonceInt(t) == (NonceInt(s) + 1) % NONCES
    requires NoneBefore(head, s, payload, threshold) && !Solves(head, s, payload, threshold)
    ensures NoneBefore(head, t, payload, threshold)
  {
    hide NonceInt, Solves;
    forall other | |other| == 4 && NonceInt(other) < NonceInt(t)
      ensures !Solves(head, other, payload, threshold)
    {
      if NonceInt(other) == NonceInt(s) {
        DigitsUnique(other, s);
      }
    }
  }
}
