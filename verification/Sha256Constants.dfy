/** Where the constants of SHA-256 come from (sections 4.2.2 and 5.3.3 of FIPS 180-4): the first 32 bits of the
    fractional parts of the square roots of the first eight primes, and of the cube roots of the first sixty-four.
  */
module Sha256Constants {
  import opened Sha256Spec

  const ONE := 0x1_0000_0000

  /** word is the first 32 bits of the fractional part of the square root of p: x is the integer part of the root
      times 2^32. */
  predicate SquareRootOf(p: nat, x: nat, word: Word) {
    x * x <= p * (ONE * ONE) < (x + 1) * (x + 1) && word == x % ONE
  }

  /** The same for the cube root. */
  predicate CubeRootOf(p: nat, x: nat, word: Word) {
    x * x * x <= p * (ONE * ONE * ONE) < (x + 1) * (x + 1) * (x + 1) && word == x % ONE
  }

  // ----- The first sixty-four primes

  predicate IsPrime(n: nat) { n >= 2 && forall d | 2 <= d < n :: n % d != 0 }

  type EightPrimes = s: seq<nat> | |s| == 8 witness [0, 0, 0, 0, 0, 0, 0, 0]

  const PRIME_ROWS: seq<EightPrimes> := [
    [2, 3, 5, 7, 11, 13, 17, 19],
    [23, 29, 31, 37, 41, 43, 47, 53],
    [59, 61, 67, 71, 73, 79, 83, 89],
    [97, 101, 103, 107, 109, 113, 127, 131],
    [137, 139, 149, 151, 157, 163, 167, 173],
    [179, 181, 191, 193, 197, 199, 211, 223],
    [227, 229, 233, 239, 241, 251, 257, 263],
    [269, 271, 277, 281, 283, 293, 307, 311]
  ]

  function Prime(t: nat): nat
    requires t < 64
  {
    PRIME_ROWS[t / 8][t % 8]
  }

  /** The numbers from a to b are prime exactly if they are one of the listed ones. */
  predicate PrimesBetween(a: nat, b: nat, primes: seq<nat>) {
    forall n | a <= n < b :: IsPrime(n) <==> n in primes
  }

  lemma Composite(n: nat, d: nat)
    requires 2 <= d < n && n % d == 0
    ensures !IsPrime(n)
  {
  }

  /** A number below 19 * 19 without a prime divisor below 19 is prime. */
  lemma SmallPrime(n: nat)
    requires 19 <= n < 361
    requires n % 2 != 0 && n % 3 != 0 && n % 5 != 0 && n % 7 != 0 && n % 11 != 0 && n % 13 != 0 && n % 17 != 0
    ensures IsPrime(n)
  {
    forall d | 2 <= d < n ensures n % d != 0 {
      if n % d == 0 {
        var q := n / d;
        Factors(n, d, q);
        if d < 19 {
          NoSmallFactor(n, d, q);
        } else {
          NoSmallFactor(n, q, d);
        }
      }
    }
  }

  lemma Factors(n: nat, d: nat, q: nat)
    requires 2 <= d < n < 361 && n % d == 0 && q == n / d
    ensures n == d * q && q >= 2 && (d < 19 || q < 19)
  {
    if d >= 19 && q >= 19 {
      Product(d, q);
      assert false;
    }
  }

  lemma Product(d: nat, q: nat)
    requires d >= 19 && q >= 19
    ensures d * q >= 361
  {
    assert d * q >= d * 19;
  }

  lemma Multiple(n: nat, p: nat, m: nat)
    requires p > 0 && n == p * m
    ensures n % p == 0
  {
    var r, q := n % p, n / p;
    Remainder(p, m - q, r);
  }

  lemma Remainder(p: nat, k: int, r: nat)
    requires r < p && p * k == r
    ensures r == 0
  {
    Grows(p, k);
  }

  lemma Grows(p: nat, k: int)
    ensures k >= 1 ==> p * k >= p
    ensures k <= -1 ==> p * k + p <= 0
  {
  }

  /** A factor below 19 has a prime factor below 19. */
  lemma NoSmallFactor(n: nat, d: nat, q: nat)
    requires n == d * q && 2 <= d < 19
    ensures n % 2 == 0 || n % 3 == 0 || n % 5 == 0 || n % 7 == 0 || n % 11 == 0 || n % 13 == 0 || n % 17 == 0
  {
    if d == 2 {
      Multiple(n, 2, 1 * q);
    } else if d == 3 {
      Multiple(n, 3, 1 * q);
    } else if d == 4 {
      Multiple(n, 2, 2 * q);
    } else if d == 5 {
      Multiple(n, 5, 1 * q);
    } else if d == 6 {
      Multiple(n, 2, 3 * q);
    } else if d == 7 {
      Multiple(n, 7, 1 * q);
    } else if d == 8 {
      Multiple(n, 2, 4 * q);
    } else if d == 9 {
      Multiple(n, 3, 3 * q);
    } else if d == 10 {
      Multiple(n, 2, 5 * q);
    } else if d == 11 {
      Multiple(n, 11, 1 * q);
    } else if d == 12 {
      Multiple(n, 2, 6 * q);
    } else if d == 13 {
      Multiple(n, 13, 1 * q);
    } else if d == 14 {
      Multiple(n, 2, 7 * q);
    } else if d == 15 {
      Multiple(n, 3, 5 * q);
    } else if d == 16 {
      Multiple(n, 2, 8 * q);
    } else if d == 17 {
      Multiple(n, 17, 1 * q);
    } else if d == 18 {
      Multiple(n, 2, 9 * q);
    }
  }

  lemma TeenPrime(n: nat)
    requires n in {2, 3, 5, 7, 11, 13, 17}
    ensures IsPrime(n)
  {
    assert n > 3 ==> n % 2 != 0 && n % 3 != 0 && n % 4 != 0;
    assert n > 5 ==> n % 5 != 0 && n % 6 != 0;
    assert n > 7 ==> n % 7 != 0 && n % 8 != 0 && n % 9 != 0 && n % 10 != 0;
    assert n > 11 ==> n % 11 != 0 && n % 12 != 0;
    assert n > 13 ==> n % 13 != 0 && n % 14 != 0 && n % 15 != 0 && n % 16 != 0;
  }

  /** No prime below 19 divides the number, unless it is one itself. */
  predicate Sieved(n: nat) {
    n in {2, 3, 5, 7, 11, 13, 17}
    || (n > 17 && n % 2 != 0 && n % 3 != 0 && n % 5 != 0 && n % 7 != 0 && n % 11 != 0 && n % 13 != 0 && n % 17 != 0)
  }

  lemma SieveIsExact(n: nat)
    requires 2 <= n < 361
    ensures IsPrime(n) <==> Sieved(n)
  {
    hide IsPrime;
    if n in {2, 3, 5, 7, 11, 13, 17} {
      TeenPrime(n);
    } else if Sieved(n) {
      SmallPrime(n);
    } else if n % 2 == 0 {
      Composite(n, 2);
    } else if n % 3 == 0 {
      Composite(n, 3);
    } else if n % 5 == 0 {
      Composite(n, 5);
    } else if n % 7 == 0 {
      Composite(n, 7);
    } else if n % 11 == 0 {
      Composite(n, 11);
    } else if n % 13 == 0 {
      Composite(n, 13);
    } else {
      Composite(n, 17);
    }
  }

  predicate NoneFrom(a: nat, b: nat)
    decreases b - a
  {
    a >= b || (!Sieved(a) && NoneFrom(a + 1, b))
  }

  lemma {:induction false} NoPrimeFrom(a: nat, b: nat, n: nat)
    requires 2 <= a <= n < b <= 361 && NoneFrom(a, b)
    ensures !IsPrime(n)
    decreases b - a
  {
    hide IsPrime, Sieved;
    if n == a {
      SieveIsExact(n);
    } else {
      NoPrimeFrom(a + 1, b, n);
    }
  }

  /** Two neighbours in the list pass the sieve, and nothing between them does. */
  predicate Follows(p: nat, q: nat) { 2 <= p < q <= 361 && Sieved(p) && NoneFrom(p + 1, q) }

  lemma PrimesInRow0(t: nat)
    requires 0 <= t < 8
    ensures Follows(Prime(t), Prime(t + 1))
  {
    if t == 0 {
      assert Follows(2, 3);
    } else if t == 1 {
      assert Follows(3, 5);
    } else if t == 2 {
      assert Follows(5, 7);
    } else if t == 3 {
      assert Follows(7, 11);
    } else if t == 4 {
      assert Follows(11, 13);
    } else if t == 5 {
      assert Follows(13, 17);
    } else if t == 6 {
      assert Follows(17, 19);
    } else if t == 7 {
      assert Follows(19, 23);
    }
  }

  lemma PrimesInRow1(t: nat)
    requires 8 <= t < 16
    ensures Follows(Prime(t), Prime(t + 1))
  {
    if t == 8 {
      assert Follows(23, 29);
    } else if t == 9 {
      assert Follows(29, 31);
    } else if t == 10 {
      assert Follows(31, 37);
    } else if t == 11 {
      assert Follows(37, 41);
    } else if t == 12 {
      assert Follows(41, 43);
    } else if t == 13 {
      assert Follows(43, 47);
    } else if t == 14 {
      assert Follows(47, 53);
    } else if t == 15 {
      assert Follows(53, 59);
    }
  }

  lemma PrimesInRow2(t: nat)
    requires 16 <= t < 24
    ensures Follows(Prime(t), Prime(t + 1))
  {
    if t == 16 {
      assert Follows(59, 61);
    } else if t == 17 {
      assert Follows(61, 67);
    } else if t == 18 {
      assert Follows(67, 71);
    } else if t == 19 {
      assert Follows(71, 73);
    } else if t == 20 {
      assert Follows(73, 79);
    } else if t == 21 {
      assert Follows(79, 83);
    } else if t == 22 {
      assert Follows(83, 89);
    } else if t == 23 {
      assert Follows(89, 97);
    }
  }

  lemma PrimesInRow3(t: nat)
    requires 24 <= t < 32
    ensures Follows(Prime(t), Prime(t + 1))
  {
    if t == 24 {
      assert Follows(97, 101);
    } else if t == 25 {
      assert Follows(101, 103);
    } else if t == 26 {
      assert Follows(103, 107);
    } else if t == 27 {
      assert Follows(107, 109);
    } else if t == 28 {
      assert Follows(109, 113);
    } else if t == 29 {
      assert Follows(113, 127);
    } else if t == 30 {
      assert Follows(127, 131);
    } else if t == 31 {
      assert Follows(131, 137);
    }
  }

  lemma PrimesInRow4(t: nat)
    requires 32 <= t < 40
    ensures Follows(Prime(t), Prime(t + 1))
  {
    if t == 32 {
      assert Follows(137, 139);
    } else if t == 33 {
      assert Follows(139, 149);
    } else if t == 34 {
      assert Follows(149, 151);
    } else if t == 35 {
      assert Follows(151, 157);
    } else if t == 36 {
      assert Follows(157, 163);
    } else if t == 37 {
      assert Follows(163, 167);
    } else if t == 38 {
      assert Follows(167, 173);
    } else if t == 39 {
      assert Follows(173, 179);
    }
  }

  lemma PrimesInRow5(t: nat)
    requires 40 <= t < 48
    ensures Follows(Prime(t), Prime(t + 1))
  {
    if t == 40 {
      assert Follows(179, 181);
    } else if t == 41 {
      assert Follows(181, 191);
    } else if t == 42 {
      assert Follows(191, 193);
    } else if t == 43 {
      assert Follows(193, 197);
    } else if t == 44 {
      assert Follows(197, 199);
    } else if t == 45 {
      assert Follows(199, 211);
    } else if t == 46 {
      assert Follows(211, 223);
    } else if t == 47 {
      assert Follows(223, 227);
    }
  }

  lemma PrimesInRow6(t: nat)
    requires 48 <= t < 56
    ensures Follows(Prime(t), Prime(t + 1))
  {
    if t == 48 {
      assert Follows(227, 229);
    } else if t == 49 {
      assert Follows(229, 233);
    } else if t == 50 {
      assert Follows(233, 239);
    } else if t == 51 {
      assert Follows(239, 241);
    } else if t == 52 {
      assert Follows(241, 251);
    } else if t == 53 {
      assert Follows(251, 257);
    } else if t == 54 {
      assert Follows(257, 263);
    } else if t == 55 {
      assert Follows(263, 269);
    }
  }

  lemma PrimesInRow7(t: nat)
    requires 56 <= t < 63
    ensures Follows(Prime(t), Prime(t + 1))
  {
    if t == 56 {
      assert Follows(269, 271);
    } else if t == 57 {
      assert Follows(271, 277);
    } else if t == 58 {
      assert Follows(277, 281);
    } else if t == 59 {
      assert Follows(281, 283);
    } else if t == 60 {
      assert Follows(283, 293);
    } else if t == 61 {
      assert Follows(293, 307);
    } else if t == 62 {
      assert Follows(307, 311);
    }
  }

  lemma PrimesFollow(t: nat)
    requires t < 63
    ensures Follows(Prime(t), Prime(t + 1))
  {
    hide Follows, Prime;
    if t < 8 {
      PrimesInRow0(t);
    } else if t < 16 {
      PrimesInRow1(t);
    } else if t < 24 {
      PrimesInRow2(t);
    } else if t < 32 {
      PrimesInRow3(t);
    } else if t < 40 {
      PrimesInRow4(t);
    } else if t < 48 {
      PrimesInRow5(t);
    } else if t < 56 {
      PrimesInRow6(t);
    } else if t < 64 {
      PrimesInRow7(t);
    }
  }

  /** The list is that of the first sixty-four primes: it begins with 2, and from one to the next there is none. */
  lemma FirstPrimes(t: nat)
    requires t < 64
    ensures Prime(0) == 2 && IsPrime(Prime(t))
    ensures t < 63 ==> Prime(t) < Prime(t + 1) && forall n | Prime(t) < n < Prime(t + 1) :: !IsPrime(n)
  {
    hide IsPrime;
    if t < 63 {
      PrimesFollow(t);
      hide Prime, Sieved;
      SieveIsExact(Prime(t));
      forall n | Prime(t) < n < Prime(t + 1) ensures !IsPrime(n) {
        NoPrimeFrom(Prime(t) + 1, Prime(t + 1), n);
      }
    } else {
      SmallPrime(311);
    }
  }

  // ----- The initial hash value and the round constants

  /** Section 5.3.3. */
  lemma InitialIsSquareRoot(i: nat) returns (x: nat)
    requires i < 8
    ensures SquareRootOf(Prime(i), x, INITIAL[i])
  {
    if i == 0 {
      x := 0x16a09e667;
    } else if i == 1 {
      x := 0x1bb67ae85;
    } else if i == 2 {
      x := 0x23c6ef372;
    } else if i == 3 {
      x := 0x2a54ff53a;
    } else if i == 4 {
      x := 0x3510e527f;
    } else if i == 5 {
      x := 0x39b05688c;
    } else if i == 6 {
      x := 0x41f83d9ab;
    } else {
      x := 0x45be0cd19;
    }
  }

  lemma RoundConstantsInRow0(t: nat) returns (x: nat)
    requires 0 <= t < 8
    ensures CubeRootOf(Prime(t), x, K(t))
  {
    if t == 0 {
      x := 0x1428a2f98;
    } else if t == 1 {
      x := 0x171374491;
    } else if t == 2 {
      x := 0x1b5c0fbcf;
    } else if t == 3 {
      x := 0x1e9b5dba5;
    } else if t == 4 {
      x := 0x23956c25b;
    } else if t == 5 {
      x := 0x259f111f1;
    } else if t == 6 {
      x := 0x2923f82a4;
    } else {
      x := 0x2ab1c5ed5;
    }
  }

  lemma RoundConstantsInRow1(t: nat) returns (x: nat)
    requires 8 <= t < 16
    ensures CubeRootOf(Prime(t), x, K(t))
  {
    if t == 8 {
      x := 0x2d807aa98;
    } else if t == 9 {
      x := 0x312835b01;
    } else if t == 10 {
      x := 0x3243185be;
    } else if t == 11 {
      x := 0x3550c7dc3;
    } else if t == 12 {
      x := 0x372be5d74;
    } else if t == 13 {
      x := 0x380deb1fe;
    } else if t == 14 {
      x := 0x39bdc06a7;
    } else {
      x := 0x3c19bf174;
    }
  }

  lemma RoundConstantsInRow2(t: nat) returns (x: nat)
    requires 16 <= t < 24
    ensures CubeRootOf(Prime(t), x, K(t))
  {
    if t == 16 {
      x := 0x3e49b69c1;
    } else if t == 17 {
      x := 0x3efbe4786;
    } else if t == 18 {
      x := 0x40fc19dc6;
    } else if t == 19 {
      x := 0x4240ca1cc;
    } else if t == 20 {
      x := 0x42de92c6f;
    } else if t == 21 {
      x := 0x44a7484aa;
    } else if t == 22 {
      x := 0x45cb0a9dc;
    } else {
      x := 0x476f988da;
    }
  }

  lemma RoundConstantsInRow3(t: nat) returns (x: nat)
    requires 24 <= t < 32
    ensures CubeRootOf(Prime(t), x, K(t))
  {
    if t == 24 {
      x := 0x4983e5152;
    } else if t == 25 {
      x := 0x4a831c66d;
    } else if t == 26 {
      x := 0x4b00327c8;
    } else if t == 27 {
      x := 0x4bf597fc7;
    } else if t == 28 {
      x := 0x4c6e00bf3;
    } else if t == 29 {
      x := 0x4d5a79147;
    } else if t == 30 {
      x := 0x506ca6351;
    } else {
      x := 0x514292967;
    }
  }

  lemma RoundConstantsInRow4(t: nat) returns (x: nat)
    requires 32 <= t < 40
    ensures CubeRootOf(Prime(t), x, K(t))
  {
    if t == 32 {
      x := 0x527b70a85;
    } else if t == 33 {
      x := 0x52e1b2138;
    } else if t == 34 {
      x := 0x54d2c6dfc;
    } else if t == 35 {
      x := 0x553380d13;
    } else if t == 36 {
      x := 0x5650a7354;
    } else if t == 37 {
      x := 0x5766a0abb;
    } else if t == 38 {
      x := 0x581c2c92e;
    } else {
      x := 0x592722c85;
    }
  }

  lemma RoundConstantsInRow5(t: nat) returns (x: nat)
    requires 40 <= t < 48
    ensures CubeRootOf(Prime(t), x, K(t))
  {
    if t == 40 {
      x := 0x5a2bfe8a1;
    } else if t == 41 {
      x := 0x5a81a664b;
    } else if t == 42 {
      x := 0x5c24b8b70;
    } else if t == 43 {
      x := 0x5c76c51a3;
    } else if t == 44 {
      x := 0x5d192e819;
    } else if t == 45 {
      x := 0x5d6990624;
    } else if t == 46 {
      x := 0x5f40e3585;
    } else {
      x := 0x6106aa070;
    }
  }

  lemma RoundConstantsInRow6(t: nat) returns (x: nat)
    requires 48 <= t < 56
    ensures CubeRootOf(Prime(t), x, K(t))
  {
    if t == 48 {
      x := 0x619a4c116;
    } else if t == 49 {
      x := 0x61e376c08;
    } else if t == 50 {
      x := 0x62748774c;
    } else if t == 51 {
      x := 0x634b0bcb5;
    } else if t == 52 {
      x := 0x6391c0cb3;
    } else if t == 53 {
      x := 0x64ed8aa4a;
    } else if t == 54 {
      x := 0x65b9cca4f;
    } else {
      x := 0x6682e6ff3;
    }
  }

  lemma RoundConstantsInRow7(t: nat) returns (x: nat)
    requires 56 <= t < 64
    ensures CubeRootOf(Prime(t), x, K(t))
  {
    if t == 56 {
      x := 0x6748f82ee;
    } else if t == 57 {
      x := 0x678a5636f;
    } else if t == 58 {
      x := 0x684c87814;
    } else if t == 59 {
      x := 0x68cc70208;
    } else if t == 60 {
      x := 0x690befffa;
    } else if t == 61 {
      x := 0x6a4506ceb;
    } else if t == 62 {
      x := 0x6bef9a3f7;
    } else {
      x := 0x6c67178f2;
    }
  }

  /** Section 4.2.2. */
  lemma RoundConstantIsCubeRoot(t: nat) returns (x: nat)
    requires t < 64
    ensures CubeRootOf(Prime(t), x, K(t))
  {
    hide CubeRootOf, Prime, K;
    if t < 8 {
      x := RoundConstantsInRow0(t);
    } else if t < 16 {
      x := RoundConstantsInRow1(t);
    } else if t < 24 {
      x := RoundConstantsInRow2(t);
    } else if t < 32 {
      x := RoundConstantsInRow3(t);
    } else if t < 40 {
      x := RoundConstantsInRow4(t);
    } else if t < 48 {
      x := RoundConstantsInRow5(t);
    } else if t < 56 {
      x := RoundConstantsInRow6(t);
    } else {
      x := RoundConstantsInRow7(t);
    }
  }
}
