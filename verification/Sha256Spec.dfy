/** SHA-256 as FIPS 180-4 defines it: a one-shot function of the whole message.
    Words are integers below 2^32; addition is modulo 2^32 (section 3.2) and the
    logical operations work bit by bit (section 2.2.2).
  */
module Sha256Spec {

  type Byte = x: int | 0 <= x < 256
  type Word = x: int | 0 <= x < 0x1_0000_0000
  type HashValue = s: seq<Word> | |s| == 8 witness [0, 0, 0, 0, 0, 0, 0, 0]
  type Block = s: seq<Byte> | |s| == 64 witness seq(64, _ => 0)

  // ----- Words

  datatype BitOp = And | Or | Xor

  function Combine(op: BitOp, x: bool, y: bool): bool {
    match op
    case And => x && y
    case Or => x || y
    case Xor => x != y
  }

  function Pow2(n: nat): (p: nat)
    ensures p > 0
  {
    if n == 0 then 1 else 2 * Pow2(n - 1)
  }

  lemma Pow2Of32()
    ensures Pow2(32) == 0x1_0000_0000
  {
    assert Pow2(8) == 256;
    assert Pow2(16) == 65536;
    assert Pow2(24) == 0x100_0000;
  }

  /** The number whose n low bits are op applied to the bits of x and y. */
  function Bitwise(op: BitOp, x: nat, y: nat, n: nat): (r: nat)
    ensures r < Pow2(n)
  {
    if n == 0 then 0
    else 2 * Bitwise(op, x / 2, y / 2, n - 1) + if Combine(op, x % 2 == 1, y % 2 == 1) then 1 else 0
  }

  /** Bit i of a number, counted from the lowest. */
  predicate Bit(x: nat, i: nat) { if i == 0 then x % 2 == 1 else Bit(x / 2, i - 1) }

  lemma {:induction false} BitwiseIsBitByBit(op: BitOp, x: nat, y: nat, n: nat, i: nat)
    ensures Bit(Bitwise(op, x, y, n), i) <==> i < n && Combine(op, Bit(x, i), Bit(y, i))
  {
    if n == 0 {
      NoBits(i);
    } else if i > 0 {
      BitwiseIsBitByBit(op, x / 2, y / 2, n - 1, i - 1);
      assert Bitwise(op, x, y, n) / 2 == Bitwise(op, x / 2, y / 2, n - 1);
    }
  }

  lemma {:induction false} NoBits(i: nat)
    ensures !Bit(0, i)
  {
    if i > 0 {
      NoBits(i - 1);
    }
  }

  function WordOp(op: BitOp, x: Word, y: Word): Word {
    Pow2Of32();
    Bitwise(op, x, y, 32)
  }

  function Not(x: Word): Word { 0xffff_ffff - x }

  lemma {:induction false} OnesMinus(x: nat, ones: nat, n: nat)
    requires x <= ones && ones + 1 == Pow2(n)
    ensures Bitwise(Xor, x, ones, n) == ones - x
  {
    if n > 0 {
      OnesMinus(x / 2, ones / 2, n - 1);
    }
  }

  /** The difference is the complement of each bit. */
  lemma NotIsBitwise(x: Word)
    ensures Not(x) == WordOp(Xor, x, 0xffff_ffff)
  {
    Pow2Of32();
    hide Pow2, Bitwise;
    OnesMinus(x, 0xffff_ffff, 32);
  }

  function Add(x: Word, y: Word): Word { (x + y) % 0x1_0000_0000 }

  function Shr(x: Word, n: nat): Word {
    if n == 0 then x else Shr(x / 2, n - 1)
  }

  function Rotr(x: Word, n: nat): Word
    requires n <= 32
  {
    WordOp(Or, Shr(x, n), (x * Pow2(32 - n)) % 0x1_0000_0000)
  }

  lemma {:induction false} ShrMovesBits(x: Word, n: nat, i: nat)
    ensures Bit(Shr(x, n), i) == Bit(x, i + n)
  {
    if n > 0 {
      ShrMovesBits(x / 2, n - 1, i);
    }
  }

  lemma {:induction false} ShlMovesBits(x: nat, n: nat, i: nat)
    ensures Bit(x * Pow2(n), i) == (i >= n && Bit(x, i - n))
  {
    if n > 0 {
      Doubled(x, n);
      if i > 0 {
        ShlMovesBits(x, n - 1, i - 1);
      }
    }
  }

  lemma Doubled(x: nat, n: nat)
    requires n > 0
    ensures x * Pow2(n) == 2 * (x * Pow2(n - 1))
  {
    var p := Pow2(n - 1);
    assert Pow2(n) == 2 * p;
    assert x * (2 * p) == 2 * (x * p);
  }

  lemma {:induction false} ModKeepsBits(x: nat, n: nat, i: nat)
    ensures Bit(x % Pow2(n), i) == (i < n && Bit(x, i))
  {
    if n == 0 {
      NoBits(i);
    } else {
      HalfOfMod(x, n);
      if i > 0 {
        ModKeepsBits(x / 2, n - 1, i - 1);
      }
    }
  }

  lemma HalfOfMod(x: nat, n: nat)
    requires n > 0
    ensures (x % Pow2(n)) / 2 == x / 2 % Pow2(n - 1) && x % Pow2(n) % 2 == x % 2
  {
    var p := Pow2(n - 1);
    var q, r := x / 2 / p, x / 2 % p;
    assert x / 2 == p * q + r;
    var rest := 2 * r + x % 2;
    assert x == (2 * p) * q + rest by { Regroup(p, q); }
    Quotient(x, 2 * p, q, rest);
  }

  lemma Regroup(p: nat, q: nat)
    ensures (2 * p) * q == 2 * (p * q)
  {
  }

  lemma Quotient(x: nat, d: nat, q: nat, r: nat)
    requires d > 0 && x == d * q + r && r < d
    ensures x % d == r
  {
    var k := x / d - q;
    assert d * (x / d) + x % d == x;
    assert d * k == r - x % d by { Spread(d, x / d, q); }
    NoMultiple(d, k);
  }

  lemma Spread(d: nat, a: int, b: int)
    ensures d * (a - b) == d * a - d * b
  {
  }

  lemma NoMultiple(d: nat, k: int)
    ensures k >= 1 ==> d * k >= d
    ensures k <= -1 ==> d * k + d <= 0
  {
  }

  lemma {:induction false} WordHasFewBits(x: Word, i: nat)
    requires i >= 32
    ensures !Bit(x, i)
  {
    Pow2Of32();
    hide Pow2;
    ModKeepsBits(x, 32, i);
    assert x % 0x1_0000_0000 == x;
  }

  lemma WrappedBits(x: Word, n: nat, i: nat)
    requires i < 32
    ensures Bit((x * Pow2(n)) % 0x1_0000_0000, i) == (i >= n && Bit(x, i - n))
  {
    Pow2Of32();
    ModKeepsBits(x * Pow2(n), 32, i);
    ShlMovesBits(x, n, i);
    hide Pow2, Bit;
  }

  lemma OpOfBits(op: BitOp, x: Word, y: Word, i: nat)
    requires i < 32
    ensures Bit(WordOp(op, x, y), i) == Combine(op, Bit(x, i), Bit(y, i))
  {
    BitwiseIsBitByBit(op, x, y, 32, i);
    hide Bit, Bitwise;
  }

  lemma RotrParts(x: Word, n: nat, i: nat) returns (high: Word)
    requires n <= 32 && i < 32
    ensures Rotr(x, n) == WordOp(Or, Shr(x, n), high) && Bit(high, i) == (i >= 32 - n && Bit(x, i - (32 - n)))
  {
    high := (x * Pow2(32 - n)) % 0x1_0000_0000;
    WrappedBits(x, 32 - n, i);
    hide Pow2, Bit, WordOp, Shr;
  }

  /** Rotation takes each bit n places down, and the lowest ones to the top. */
  lemma RotrMovesBits(x: Word, n: nat, i: nat)
    requires n <= 32 && i < 32
    ensures Bit(Rotr(x, n), i) == Bit(x, (i + n) % 32)
  {
    hide Bit, Rotr, Shr, WordOp, Pow2;
    var high := RotrParts(x, n, i);
    OpOfBits(Or, Shr(x, n), high, i);
    ShrMovesBits(x, n, i);
    if i + n >= 32 {
      WordHasFewBits(x, i + n);
    }
  }

  // ----- Functions of section 4.1.2

  function Xor3(x: Word, y: Word, z: Word): Word { WordOp(Xor, WordOp(Xor, x, y), z) }
  function Ch(x: Word, y: Word, z: Word): Word { WordOp(Xor, WordOp(And, x, y), WordOp(And, Not(x), z)) }
  function Maj(x: Word, y: Word, z: Word): Word { Xor3(WordOp(And, x, y), WordOp(And, x, z), WordOp(And, y, z)) }

  /** Each bit of the choice is that of y or of z, as x says; each bit of the majority is the one that two of them have. */
  lemma ChoiceAndMajority(x: Word, y: Word, z: Word, i: nat)
    requires i < 32
    ensures Bit(Ch(x, y, z), i) == if Bit(x, i) then Bit(y, i) else Bit(z, i)
    ensures Bit(Maj(x, y, z), i) == if Bit(x, i) == Bit(y, i) then Bit(x, i) else Bit(z, i)
  {
    hide Bit, WordOp, Not;
    OpOfBits(And, x, y, i);
    OpOfBits(And, x, z, i);
    OpOfBits(And, y, z, i);
    OpOfBits(And, Not(x), z, i);
    NotOfBits(x, i);
    OpOfBits(Xor, WordOp(And, x, y), WordOp(And, Not(x), z), i);
    OpOfBits(Xor, WordOp(And, x, y), WordOp(And, x, z), i);
    OpOfBits(Xor, WordOp(Xor, WordOp(And, x, y), WordOp(And, x, z)), WordOp(And, y, z), i);
  }

  lemma NotOfBits(x: Word, i: nat)
    requires i < 32
    ensures Bit(Not(x), i) == !Bit(x, i)
  {
    NotIsBitwise(x);
    OpOfBits(Xor, x, 0xffff_ffff, i);
    OnesHaveBits(32, i);
    Pow2Of32();
    hide WordOp, Not, Bit;
  }

  lemma {:induction false} OnesHaveBits(n: nat, i: nat)
    requires i < n
    ensures Bit(Pow2(n) - 1, i)
  {
    if i > 0 {
      OnesHaveBits(n - 1, i - 1);
      assert (Pow2(n) - 1) / 2 == Pow2(n - 1) - 1;
    }
  }

  function BigSigma0(x: Word): Word { Xor3(Rotr(x, 2), Rotr(x, 13), Rotr(x, 22)) }
  function BigSigma1(x: Word): Word { Xor3(Rotr(x, 6), Rotr(x, 11), Rotr(x, 25)) }
  function SmallSigma0(x: Word): Word { Xor3(Rotr(x, 7), Rotr(x, 18), Shr(x, 3)) }
  function SmallSigma1(x: Word): Word { Xor3(Rotr(x, 17), Rotr(x, 19), Shr(x, 10)) }

  // ----- Padding, section 5.1.1

  /** The least number of zero bytes after the 0x80 byte that lets the 8-byte length
      field end a block. */
  function ZeroBytes(length: nat): (k: nat)
    ensures k < 64 && (length + 9 + k) % 64 == 0
  {
    (119 - length % 64) % 64
  }

  function Zeros(n: nat): (s: seq<Byte>)
    ensures |s| == n
  {
    seq(n, _ => 0)
  }

  function BigEndian(x: nat, count: nat): (s: seq<Byte>)
    ensures |s| == count
  {
    if count == 0 then [] else BigEndian(x / 256, count - 1) + [x % 256]
  }

  function Pad(message: seq<Byte>): (s: seq<Byte>)
    ensures |s| % 64 == 0
  {
    message + [0x80] + Zeros(ZeroBytes(|message|)) + BigEndian(8 * |message|, 8)
  }

  // ----- Hash computation, section 6.2.2

  function BlockWord(block: Block, t: nat): Word
    requires t < 16
  {
    var b0: int, b1: int, b2: int, b3: int := block[4 * t], block[4 * t + 1], block[4 * t + 2], block[4 * t + 3];
    b0 * 0x100_0000 + b1 * 0x1_0000 + b2 * 0x100 + b3
  }

  /** W_t, the message schedule. */
  function Schedule(block: Block, t: nat): Word {
    if t < 16 then BlockWord(block, t)
    else
      Add(Add(SmallSigma1(Schedule(block, t - 2)), Schedule(block, t - 7)),
          Add(SmallSigma0(Schedule(block, t - 15)), Schedule(block, t - 16)))
  }

  datatype Working = Working(a: Word, b: Word, c: Word, d: Word, e: Word, f: Word, g: Word, h: Word)

  function T1(v: Working, k: Word, w: Word): Word {
    Add(Add(Add(v.h, BigSigma1(v.e)), Add(Ch(v.e, v.f, v.g), k)), w)
  }

  function T2(v: Working): Word { Add(BigSigma0(v.a), Maj(v.a, v.b, v.c)) }

  function Round(v: Working, k: Word, w: Word): Working {
    var t1 := T1(v, k, w);
    var t2 := T2(v);
    Working(Add(t1, t2), v.a, v.b, v.c, Add(v.d, t1), v.e, v.f, v.g)
  }

  type ScheduleWords = s: seq<Word> | |s| <= 64

  /** The working variables after one round for each of the given schedule words. */
  function Rounds(h: HashValue, words: ScheduleWords): Working {
    if words == [] then Working(h[0], h[1], h[2], h[3], h[4], h[5], h[6], h[7])
    else
      var last := |words| - 1;
      Round(Rounds(h, words[..last]), K(last), words[last])
  }

  function AddWorking(h: HashValue, v: Working): HashValue {
    [Add(h[0], v.a), Add(h[1], v.b), Add(h[2], v.c), Add(h[3], v.d),
     Add(h[4], v.e), Add(h[5], v.f), Add(h[6], v.g), Add(h[7], v.h)]
  }

  function Compress(h: HashValue, block: Block): HashValue {
    AddWorking(h, Rounds(h, seq(64, t requires 0 <= t => Schedule(block, t))))
  }

  function HashBlocks(h: HashValue, message: seq<Byte>): HashValue
    requires |message| % 64 == 0
  {
    if message == [] then h
    else Compress(HashBlocks(h, message[..|message| - 64]), message[|message| - 64..])
  }

  function Sha256(message: seq<Byte>): HashValue { HashBlocks(INITIAL, Pad(message)) }

  // ----- Hexadecimal form

  function HexDigit(d: nat): char
    requires d < 16
  {
    "0123456789abcdef"[d]
  }

  /** The lowest count hexadecimal digits of x, most significant first. */
  function Hex(x: nat, count: nat): (s: string)
    ensures |s| == count
  {
    if count == 0 then "" else Hex(x / 16, count - 1) + [HexDigit(x % 16)]
  }

  function DigitValue(c: char): nat
    requires '0' <= c <= '9' || 'a' <= c <= 'f'
  {
    if c <= '9' then c as int - '0' as int else c as int - 'a' as int + 10
  }

  /** The number a string of digits stands for. */
  function Numeral(s: string): nat
    requires forall i | 0 <= i < |s| :: '0' <= s[i] <= '9' || 'a' <= s[i] <= 'f'
  {
    if s == "" then 0 else 16 * Numeral(s[..|s| - 1]) + DigitValue(s[|s| - 1])
  }

  /** Hexadecimal digits in small letters, and their number. */
  lemma {:induction false} HexIsNumeral(x: nat, count: nat)
    requires x < Pow2(4 * count)
    ensures forall i | 0 <= i < count :: '0' <= Hex(x, count)[i] <= '9' || 'a' <= Hex(x, count)[i] <= 'f'
    ensures Numeral(Hex(x, count)) == x
  {
    if count > 0 {
      var n := 4 * (count - 1);
      assert Pow2(4 * count) == 2 * Pow2(n + 3) == 4 * Pow2(n + 2) == 8 * Pow2(n + 1) == 16 * Pow2(n);
      HexIsNumeral(x / 16, count - 1);
      DigitIsValue(x % 16);
      hide HexDigit, DigitValue, Pow2;
      assert Hex(x, count)[..count - 1] == Hex(x / 16, count - 1);
    }
  }

  lemma DigitIsValue(d: nat)
    requires d < 16
    ensures var c := HexDigit(d); ('0' <= c <= '9' || 'a' <= c <= 'f') && DigitValue(c) == d
  {
  }

  function HexWords(words: seq<Word>): string {
    if words == [] then "" else HexWords(words[..|words| - 1]) + Hex(words[|words| - 1], 8)
  }

  function Sha256Hex(message: seq<Byte>): string { HexWords(Sha256(message)) }

  // ----- Constants, sections 4.2.2 and 5.3.3

  const INITIAL: HashValue := [
    0x6a09e667, 0xbb67ae85, 0x3c6ef372, 0xa54ff53a, 0x510e527f, 0x9b05688c, 0x1f83d9ab, 0x5be0cd19
  ]

  /** The round constants, in rows of eight. */
  const K_ROWS: seq<HashValue> := [
    [0x428a2f98, 0x71374491, 0xb5c0fbcf, 0xe9b5dba5, 0x3956c25b, 0x59f111f1, 0x923f82a4, 0xab1c5ed5],
    [0xd807aa98, 0x12835b01, 0x243185be, 0x550c7dc3, 0x72be5d74, 0x80deb1fe, 0x9bdc06a7, 0xc19bf174],
    [0xe49b69c1, 0xefbe4786, 0x0fc19dc6, 0x240ca1cc, 0x2de92c6f, 0x4a7484aa, 0x5cb0a9dc, 0x76f988da],
    [0x983e5152, 0xa831c66d, 0xb00327c8, 0xbf597fc7, 0xc6e00bf3, 0xd5a79147, 0x06ca6351, 0x14292967],
    [0x27b70a85, 0x2e1b2138, 0x4d2c6dfc, 0x53380d13, 0x650a7354, 0x766a0abb, 0x81c2c92e, 0x92722c85],
    [0xa2bfe8a1, 0xa81a664b, 0xc24b8b70, 0xc76c51a3, 0xd192e819, 0xd6990624, 0xf40e3585, 0x106aa070],
    [0x19a4c116, 0x1e376c08, 0x2748774c, 0x34b0bcb5, 0x391c0cb3, 0x4ed8aa4a, 0x5b9cca4f, 0x682e6ff3],
    [0x748f82ee, 0x78a5636f, 0x84c87814, 0x8cc70208, 0x90befffa, 0xa4506ceb, 0xbef9a3f7, 0xc67178f2]
  ]

  function K(t: nat): Word
    requires t < 64
  {
    K_ROWS[t / 8][t % 8]
  }
}
