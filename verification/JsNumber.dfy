/** JavaScript's bitwise operators on numbers: each converts its operands to 32 bits
    and, except for the unsigned shift, returns a signed 32-bit result.
  */
module JsNumber {
  import opened Sha256Spec

  /** ToUint32, which `x >>> 0` computes. */
  function Uint32(x: int): Word { x % 0x1_0000_0000 }

  /** The signed reading of 32 bits. */
  function Int32(w: Word): int { if w < 0x8000_0000 then w else w - 0x1_0000_0000 }

  function BitXor(x: int, y: int): int { Int32(WordOp(Xor, Uint32(x), Uint32(y))) }
  function BitAnd(x: int, y: int): int { Int32(WordOp(And, Uint32(x), Uint32(y))) }
  function BitOr(x: int, y: int): int { Int32(WordOp(Or, Uint32(x), Uint32(y))) }
  function BitNot(x: int): int { Int32(Not(Uint32(x))) }
  function UnsignedShiftRight(x: int, n: nat): Word { Shr(Uint32(x), n) }
  function ShiftLeft(x: int, n: nat): int { Int32((Uint32(x) * Pow2(n)) % 0x1_0000_0000) }

  /** The source's `rotate`. */
  function Rotate(value: int, bits: nat): int
    requires bits <= 32
  {
    BitOr(UnsignedShiftRight(value, bits), ShiftLeft(value, 32 - bits))
  }

  lemma SignIsLost(w: Word)
    ensures Uint32(Int32(w)) == w && Uint32(w) == w
  {
  }

  lemma RotateIsRotr(w: Word, bits: nat)
    requires bits <= 32
    ensures Rotate(w, bits) == Int32(Rotr(w, bits))
  {
    SignIsLost(w);
    SignIsLost((w * Pow2(32 - bits)) % 0x1_0000_0000);
    SignIsLost(Shr(w, bits));
  }

  lemma Xor3IsSigned(x: Word, y: Word, z: Word)
    ensures BitXor(BitXor(Int32(x), Int32(y)), Int32(z)) == Int32(Xor3(x, y, z))
    ensures BitXor(BitXor(Int32(x), Int32(y)), z) == Int32(Xor3(x, y, z))
  {
    SignIsLost(x);
    SignIsLost(y);
    SignIsLost(z);
    SignIsLost(WordOp(Xor, x, y));
  }

  lemma ChoiceIsCh(e: Word, f: Word, g: Word)
    ensures BitXor(BitAnd(e, f), BitAnd(BitNot(e), g)) == Int32(Ch(e, f, g))
  {
    SignIsLost(e);
    SignIsLost(f);
    SignIsLost(g);
    SignIsLost(Not(e));
    SignIsLost(WordOp(And, e, f));
    SignIsLost(WordOp(And, Not(e), g));
  }

  lemma MajorityIsMaj(a: Word, b: Word, c: Word)
    ensures BitXor(BitXor(BitAnd(a, b), BitAnd(a, c)), BitAnd(b, c)) == Int32(Maj(a, b, c))
  {
    SignIsLost(a);
    SignIsLost(b);
    SignIsLost(c);
    Xor3IsSigned(WordOp(And, a, b), WordOp(And, a, c), WordOp(And, b, c));
  }

  lemma ExpressionIsSmallSigma0(w: Word)
    ensures BitXor(BitXor(Rotate(w, 7), Rotate(w, 18)), UnsignedShiftRight(w, 3)) == Int32(SmallSigma0(w))
  {
    RotateIsRotr(w, 7);
    RotateIsRotr(w, 18);
    SignIsLost(w);
    Xor3IsSigned(Rotr(w, 7), Rotr(w, 18), Shr(w, 3));
  }

  lemma ExpressionIsSmallSigma1(w: Word)
    ensures BitXor(BitXor(Rotate(w, 17), Rotate(w, 19)), UnsignedShiftRight(w, 10)) == Int32(SmallSigma1(w))
  {
    RotateIsRotr(w, 17);
    RotateIsRotr(w, 19);
    SignIsLost(w);
    Xor3IsSigned(Rotr(w, 17), Rotr(w, 19), Shr(w, 10));
  }

  lemma ExpressionIsBigSigma0(w: Word)
    ensures BitXor(BitXor(Rotate(w, 2), Rotate(w, 13)), Rotate(w, 22)) == Int32(BigSigma0(w))
  {
    RotateIsRotr(w, 2);
    RotateIsRotr(w, 13);
    RotateIsRotr(w, 22);
    Xor3IsSigned(Rotr(w, 2), Rotr(w, 13), Rotr(w, 22));
  }

  lemma ExpressionIsBigSigma1(w: Word)
    ensures BitXor(BitXor(Rotate(w, 6), Rotate(w, 11)), Rotate(w, 25)) == Int32(BigSigma1(w))
  {
    RotateIsRotr(w, 6);
    RotateIsRotr(w, 11);
    RotateIsRotr(w, 25);
    Xor3IsSigned(Rotr(w, 6), Rotr(w, 11), Rotr(w, 25));
  }

  lemma Wraps(x: int, y: int, turns: int)
    requires x == y + turns * 0x1_0000_0000
    ensures Uint32(x) == Uint32(y)
  {
  }

  /** In a sum under `>>> 0` a term may be read as signed, and may be reduced first. */
  lemma SignedTerm(rest: int, w: Word)
    ensures Uint32(rest + Int32(w)) == Uint32(rest + w)
  {
    hide Uint32;
    Wraps(rest + Int32(w), rest + w, if w < 0x8000_0000 then 0 else -1);
  }

  lemma ReducedTerm(rest: int, x: int)
    ensures Uint32(rest + Uint32(x)) == Uint32(rest + x)
  {
    Wraps(rest + x % 0x1_0000_0000, rest + x, -(x / 0x1_0000_0000));
  }

  lemma AddIsUint32(v: Word, w: Word)
    ensures Add(v, w) == Uint32(v as int + w)
  {
  }

  lemma SumOfTwo(v: Word, w: Word)
    ensures Uint32(v as int + w) == Uint32(Int32(v) + Int32(w)) == Add(v, w)
  {
    hide Uint32, Add, Int32;
    SignedTerm(Int32(v), w);
    SignedTerm(w, v);
    AddIsUint32(v, w);
  }

  lemma SumOfFour(v: Word, w: Word, x: Word, y: Word)
    ensures Uint32(v + Int32(w) + x + Int32(y)) == Add(Add(y, x), Add(w, v))
  {
    hide Uint32, Add, Int32;
    SignedTerm(v + Int32(w) + x, y);
    SignedTerm(v as int + x + y, w);
    AddIsUint32(y, x);
    AddIsUint32(w, v);
    AddIsUint32(Add(y, x), Add(w, v));
    ReducedTerm(Add(y, x), w as int + v);
    ReducedTerm(w as int + v, y as int + x);
  }

  lemma SumOfFive(v: Word, w: Word, x: Word, y: Word, z: Word)
    ensures Uint32(v + Int32(w) + Int32(x) + y + z) == Add(Add(Add(v, w), Add(x, y)), z)
  {
    hide Uint32, Add, Int32;
    SignedTerm(v + Int32(w) + y + z, x);
    SignedTerm(v as int + x + y + z, w);
    var p, q := Add(v, w), Add(x, y);
    AddIsUint32(v, w);
    AddIsUint32(x, y);
    AddIsUint32(p, q);
    AddIsUint32(Add(p, q), z);
    ReducedTerm(z, p as int + q);
    ReducedTerm(z as int + p, x as int + y);
    ReducedTerm(z as int + x + y, v as int + w);
  }
}
