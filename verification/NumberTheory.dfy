/** Congruences, primes and Fermat's little theorem, as far as the RSA private-key operation needs them. */
module NumberTheory {

  ghost function Pow(b: int, e: nat): int {
    if e == 0 then 1 else b * Pow(b, e - 1)
  }

  // d divides a, with an explicit cofactor
  ghost predicate Divides(d: int, a: int) {
    exists k: int :: Multiple(k, d, a)
  }

  ghost predicate Multiple(k: int, d: int, a: int) {
    a == k * d
  }

  ghost predicate Congruent(a: int, b: int, m: int) {
    Divides(m, a - b)
  }

  ghost predicate Prime(p: int) {
    p >= 2 && forall d :: 1 < d < p ==> p % d != 0
  }

  // ---- divisibility ----

  lemma DividesBy(k: int, d: int, a: int)
    requires a == k * d
    ensures Divides(d, a)
  {
    assert Multiple(k, d, a);
  }

  lemma DividesSum(d: int, a: int, b: int)
    requires Divides(d, a) && Divides(d, b)
    ensures Divides(d, a + b) && Divides(d, a - b)
  {
    var k :| Multiple(k, d, a);
    var l :| Multiple(l, d, b);
    DividesBy(k + l, d, a + b);
    DividesBy(k - l, d, a - b);
  }

  lemma DividesProduct(d: int, a: int, b: int)
    requires Divides(d, a)
    ensures Divides(d, a * b) && Divides(d, b * a)
  {
    var k :| Multiple(k, d, a);
    assert a * b == (k * b) * d;
    DividesBy(k * b, d, a * b);
  }

  lemma DividesMod(d: int, a: int)
    requires d > 0
    ensures Divides(d, a) <==> a % d == 0
  {
    if Divides(d, a) {
      var k :| Multiple(k, d, a);
      QuotientUnique(a, d, k, 0);
    }
    if a % d == 0 {
      DividesBy(a / d, d, a);
    }
  }

  // Euclidean division is the only way to write a as k*d + r with 0 <= r < d.
  lemma QuotientUnique(a: int, d: int, k: int, r: int)
    requires d > 0 && a == k * d + r && 0 <= r < d
    ensures a % d == r && a / d == k
  {
    var q, s := a / d, a % d;
    assert (k - q) * d == s - r;
    MultipleBound(k - q, d);
  }

  lemma MultipleBound(x: int, d: int)
    requires d > 0
    ensures x >= 1 ==> x * d >= d
    ensures x <= -1 ==> x * d <= -d
  {
    if x >= 1 {
      assert x * d == (x - 1) * d + d;
    } else if x <= -1 {
      assert x * d == (x + 1) * d - d;
    }
  }

  // ---- congruences ----

  lemma CongruentMod(a: int, m: int)
    requires m > 0
    ensures Congruent(a % m, a, m) && Congruent(a, a % m, m)
  {
    DividesBy(-(a / m), m, a % m - a);
    DividesBy(a / m, m, a - a % m);
  }

  lemma CongruentRefl(a: int, m: int)
    ensures Congruent(a, a, m)
  {
    DividesBy(0, m, a - a);
  }

  lemma CongruentSym(a: int, b: int, m: int)
    requires Congruent(a, b, m)
    ensures Congruent(b, a, m)
  {
    DividesBy(0, m, 0);
    DividesSum(m, 0, a - b);
  }

  lemma CongruentTrans(a: int, b: int, c: int, m: int)
    requires Congruent(a, b, m) && Congruent(b, c, m)
    ensures Congruent(a, c, m)
  {
    DividesSum(m, a - b, b - c);
  }

  lemma CongruentAdd(a: int, b: int, c: int, d: int, m: int)
    requires Congruent(a, b, m) && Congruent(c, d, m)
    ensures Congruent(a + c, b + d, m)
  {
    DividesSum(m, a - b, c - d);
    assert (a - b) + (c - d) == (a + c) - (b + d);
  }

  lemma CongruentMul(a: int, b: int, c: int, d: int, m: int)
    requires Congruent(a, b, m) && Congruent(c, d, m)
    ensures Congruent(a * c, b * d, m)
  {
    DividesProduct(m, a - b, c);
    DividesProduct(m, c - d, b);
    DividesSum(m, (a - b) * c, b * (c - d));
    assert (a - b) * c + b * (c - d) == a * c - b * d;
  }

  // Congruent numbers are exactly those with equal remainders.
  lemma CongruentIffEqualMod(a: int, b: int, m: int)
    requires m > 0
    ensures Congruent(a, b, m) <==> a % m == b % m
  {
    if Congruent(a, b, m) {
      var k :| Multiple(k, m, a - b);
      var q, r := b / m, b % m;
      assert a == (k + q) * m + r;
      QuotientUnique(a, m, k + q, r);
    }
    if a % m == b % m {
      assert a - b == (a / m - b / m) * m;
      DividesBy(a / m - b / m, m, a - b);
    }
  }

  lemma {:induction false} CongruentPow(a: int, b: int, e: nat, m: int)
    requires Congruent(a, b, m)
    ensures Congruent(Pow(a, e), Pow(b, e), m)
  {
    if e == 0 {
      CongruentRefl(1, m);
    } else {
      CongruentPow(a, b, e - 1, m);
      CongruentMul(a, b, Pow(a, e - 1), Pow(b, e - 1), m);
    }
  }

  // ---- powers ----

  lemma {:induction false} PowAdd(b: int, e: nat, f: nat)
    ensures Pow(b, e + f) == Pow(b, e) * Pow(b, f)
  {
    if e != 0 {
      PowAdd(b, e - 1, f);
      assert b * (Pow(b, e - 1) * Pow(b, f)) == b * Pow(b, e - 1) * Pow(b, f);
    }
  }

  lemma {:induction false} PowSquare(b: int, e: nat)
    ensures Pow(b * b, e) == Pow(b, 2 * e)
  {
    if e != 0 {
      PowSquare(b, e - 1);
      calc {
        Pow(b, 2 * e);
        b * Pow(b, 2 * e - 1);
        b * (b * Pow(b, 2 * e - 2));
        b * b * Pow(b, 2 * (e - 1));
      }
    }
  }

  lemma {:induction false} PowMultiple(b: int, e: nat, k: nat)
    ensures e * k >= 0
    ensures Pow(b, e * k) == Pow(Pow(b, e), k)
  {
    if k != 0 {
      PowMultiple(b, e, k - 1);
      assert e * k == e + e * (k - 1);
      PowAdd(b, e, e * (k - 1));
    }
  }

  lemma {:induction false} PowOne(k: nat)
    ensures Pow(1, k) == 1
  {
    if k != 0 { PowOne(k - 1); }
  }

  lemma {:induction false} PowZero(k: nat)
    ensures Pow(0, k) == if k == 0 then 1 else 0
  {
  }

  // ---- primes ----

  /** Euclid's lemma, by descent on a. */
  lemma {:induction false} EuclidStep(p: int, a: int, b: int)
    requires Prime(p) && 0 < a < p && Divides(p, a * b)
    ensures Divides(p, b)
    decreases a
  {
    if a > 1 {
      var q, r := p / a, p % a;
      assert 0 < r < a;
      // r*b == b*p - q*(a*b)
      DividesBy(b, p, p * b);
      DividesProduct(p, a * b, q);
      DividesSum(p, p * b, (a * b) * q);
      assert p * b - (a * b) * q == (p - q * a) * b == r * b;
      EuclidStep(p, r, b);
    }
  }

  lemma Euclid(p: int, a: int, b: int)
    requires Prime(p) && Divides(p, a * b)
    ensures Divides(p, a) || Divides(p, b)
  {
    var r := a % p;
    DividesMod(p, a);
    if r != 0 {
      CongruentMod(a, p);
      CongruentRefl(b, p);
      CongruentMul(a % p, a, b, b, p);
      DividesSum(p, r * b - a * b, a * b);
      EuclidStep(p, r, b);
    }
  }

  /** Two distinct primes dividing x have a product dividing x. */
  lemma CoprimeProductDivides(p: int, q: int, x: int)
    requires Prime(p) && Prime(q) && p != q
    requires Divides(p, x) && Divides(q, x)
    ensures Divides(p * q, x)
  {
    var k :| Multiple(k, p, x);
    Euclid(q, k, p);
    if Divides(q, p) {
      DividesMod(q, p);
      var j :| Multiple(j, q, p);
      if q > p {
        QuotientUnique(p, q, 0, p);
      }
      assert false;
    }
    var l :| Multiple(l, q, k);
    assert x == l * q * p == l * (p * q);
    DividesBy(l, p * q, x);
  }

  // ---- Fermat's little theorem, through the binomial expansion of (a+1)^p ----

  ghost function Choose(n: nat, k: nat): nat {
    if k == 0 then 1
    else if n == 0 then 0
    else Choose(n - 1, k - 1) + Choose(n - 1, k)
  }

  // The first k+1 terms of the expansion of (a+1)^n
  ghost function Binomial(n: nat, k: nat, a: int): int {
    Choose(n, k) * Pow(a, k) + if k == 0 then 0 else Binomial(n, k - 1, a)
  }

  lemma {:induction false} ChooseBeyond(n: nat, k: nat)
    requires k > n
    ensures Choose(n, k) == 0
  {
    if n != 0 {
      ChooseBeyond(n - 1, k - 1);
      ChooseBeyond(n - 1, k);
    }
  }

  lemma {:induction false} ChooseDiagonal(n: nat)
    ensures Choose(n, n) == 1
  {
    if n != 0 {
      ChooseDiagonal(n - 1);
      ChooseBeyond(n - 1, n);
    }
  }

  lemma AbsorptionStep(n: int, k: int, x: int, y: int, d: int)
    requires (k - 1) * (x + y) == (n - 1) * x && k * d == (n - 1) * y
    ensures k * (x + y + d) == n * (x + y)
  {
    assert k * (x + y + d) == (k - 1) * (x + y) + (x + y) + k * d;
    assert (n - 1) * x + (n - 1) * y == (n - 1) * (x + y);
    assert (n - 1) * (x + y) + (x + y) == n * (x + y);
  }

  lemma {:induction false} Absorption(n: nat, k: nat)
    requires n > 0 && k > 0
    ensures k * Choose(n, k) == n * Choose(n - 1, k - 1)
  {
    if n == 1 {
      if k > 1 { ChooseBeyond(0, k - 1); ChooseBeyond(1, k); }
    } else if k > 1 {
      Absorption(n - 1, k);
      Absorption(n - 1, k - 1);
      AbsorptionStep(n, k, Choose(n - 2, k - 2), Choose(n - 2, k - 1), Choose(n - 1, k));
    } else {
      Absorption(n - 1, 1);
    }
  }

  lemma {:induction false} BinomialPascal(n: nat, k: nat, a: int)
    requires k > 0
    ensures Binomial(n + 1, k, a) == Binomial(n, k, a) + a * Binomial(n, k - 1, a)
  {
    var c, d := Choose(n, k - 1), Choose(n, k);
    var q := Pow(a, k - 1);
    assert (c + d) * (a * q) == c * (a * q) + d * (a * q);
    assert c * (a * q) == a * (c * q);
    if k == 1 {
      assert Binomial(n + 1, 0, a) == 1 == Binomial(n, 0, a);
    } else {
      BinomialPascal(n, k - 1, a);
      assert a * (c * q + Binomial(n, k - 2, a)) == a * (c * q) + a * Binomial(n, k - 2, a);
    }
  }

  /** The binomial theorem for (a+1)^n. */
  lemma {:induction false} BinomialTheorem(n: nat, a: int)
    ensures Binomial(n, n, a) == Pow(a + 1, n)
  {
    if n != 0 {
      BinomialTheorem(n - 1, a);
      BinomialPascal(n - 1, n, a);
      ChooseBeyond(n - 1, n);
      assert Binomial(n - 1, n, a) == Binomial(n - 1, n - 1, a);
    }
  }

  lemma BinomialTop(n: nat, a: int)
    requires n > 0
    ensures Binomial(n, n, a) == Pow(a, n) + Binomial(n, n - 1, a)
  {
    ChooseDiagonal(n);
    assert Choose(n, n) * Pow(a, n) == Pow(a, n);
  }

  lemma PrimeDividesChoose(p: int, k: nat)
    requires Prime(p) && 0 < k < p
    ensures Divides(p, Choose(p, k))
  {
    Absorption(p, k);
    PrimeDividesFactor(p, k, Choose(p, k), Choose(p - 1, k - 1));
  }

  lemma PrimeDividesFactor(p: int, k: nat, x: int, y: int)
    requires Prime(p) && 0 < k < p && k * x == p * y
    ensures Divides(p, x)
  {
    DividesBy(y, p, k * x);
    EuclidStep(p, k, x);
  }

  lemma {:induction false} BinomialModPrime(p: int, k: nat, a: int)
    requires Prime(p) && k < p
    ensures Congruent(Binomial(p, k, a), 1, p)
  {
    if k == 0 {
      CongruentRefl(1, p);
    } else {
      BinomialModPrime(p, k - 1, a);
      PrimeDividesChoose(p, k);
      DividesProduct(p, Choose(p, k), Pow(a, k));
      DividesSum(p, Choose(p, k) * Pow(a, k), Binomial(p, k - 1, a) - 1);
    }
  }

  lemma {:induction false} FermatNat(p: int, a: nat)
    requires Prime(p)
    ensures Congruent(Pow(a, p), a, p)
  {
    if a == 0 {
      CongruentRefl(0, p);
    } else {
      var b := a - 1;
      FermatNat(p, b);
      BinomialTheorem(p, b);
      BinomialModPrime(p, p - 1, b);
      BinomialTop(p, b);
      // Pow(a, p) == Pow(b, p) + Binomial(p, p - 1, b), and these are congruent to b and 1
      CongruentAdd(Pow(b, p), b, Binomial(p, p - 1, b), 1, p);
    }
  }

  /** Fermat's little theorem. */
  lemma Fermat(p: int, a: nat)
    requires Prime(p) && !Divides(p, a)
    ensures Congruent(Pow(a, p - 1), 1, p)
  {
    FermatNat(p, a);
    assert Pow(a, p) - a == a * (Pow(a, p - 1) - 1);
    Euclid(p, a, Pow(a, p - 1) - 1);
  }

  /** The exponent of a unit may be reduced modulo p-1. */
  lemma ReduceExponent(p: int, a: nat, d: nat)
    requires Prime(p) && !Divides(p, a)
    ensures Congruent(Pow(a, d % (p - 1)), Pow(a, d), p)
  {
    var r, k := d % (p - 1), d / (p - 1);
    assert d == (p - 1) * k + r;
    assert k >= 0;
    PowMultiple(a, p - 1, k);
    PowAdd(a, (p - 1) * k, r);
    Fermat(p, a);
    CongruentPow(Pow(a, p - 1), 1, k, p);
    PowOne(k);
    CongruentRefl(Pow(a, r), p);
    CongruentMul(Pow(Pow(a, p - 1), k), 1, Pow(a, r), Pow(a, r), p);
    CongruentSym(Pow(a, d), Pow(a, r), p);
  }
}
