/** The browser's streaming digest: a 64-byte buffer and eight state words, updated in place. */
module FileHash {
  import opened Sha256Spec
  import opened JsNumber

  function Expansion(w16: Word, w15: Word, w7: Word, w2: Word): Word {
    var s0 := BitXor(BitXor(Rotate(w15, 7), Rotate(w15, 18)), UnsignedShiftRight(w15, 3));
    var s1 := BitXor(BitXor(Rotate(w2, 17), Rotate(w2, 19)), UnsignedShiftRight(w2, 10));
    Uint32(w16 + s0 + w7 + s1)
  }

  lemma ExpansionIsSchedule(w16: Word, w15: Word, w7: Word, w2: Word)
    ensures Expansion(w16, w15, w7, w2) == Add(Add(SmallSigma1(w2), w7), Add(SmallSigma0(w15), w16))
  {
    hide Uint32, Add, Rotate, BitXor, UnsignedShiftRight, SmallSigma0, SmallSigma1;
    ExpressionIsSmallSigma0(w15);
    ExpressionIsSmallSigma1(w2);
    SumOfFour(w16, SmallSigma0(w15), w7, SmallSigma1(w2));
  }

  // ----- Padding and hexadecimal output

  function Scale(base: nat, count: nat): nat { if count == 0 then 1 else base * Scale(base, count - 1) }

  lemma BigEndianUnfolds(y: nat, digit: Byte, count: nat)
    ensures BigEndian(256 * y + digit, count + 1) == BigEndian(y, count) + [digit]
  {
  }

  lemma {:induction false} BigEndianAppend(high: nat, low: nat, count: nat, scale: nat)
    requires scale == Scale(256, count) && low < scale
    ensures BigEndian(high * scale + low, 4 + count) == BigEndian(high, 4) + BigEndian(low, count)
  {
    hide BigEndian;
    if count == 0 {
      BigEndianNone(low);
    } else {
      var smaller := Scale(256, count - 1);
      var rest, digit := low / 256, low % 256;
      assert high * scale == 256 * (high * smaller);
      BigEndianAppend(high, rest, count - 1, smaller);
      BigEndianUnfolds(high * smaller + rest, digit, 4 + count - 1);
      BigEndianUnfolds(rest, digit, count - 1);
    }
  }

  lemma BigEndianNone(low: nat)
    ensures BigEndian(low, 0) == []
  {
  }

  lemma BigEndianDigits(value: Word)
    ensures BigEndian(value, 4)
         == [value / 0x100_0000, value / 0x1_0000 % 256, value / 0x100 % 256, value % 256]
  {
    assert BigEndian(value / 0x1_0000, 2) == [value / 0x100_0000, value / 0x1_0000 % 256];
  }

  lemma BitCount(bytes: nat, bitHigh: nat, bitLow: Word)
    requires bitHigh == bytes / 0x2000_0000 && bitLow == Uint32(ShiftLeft(bytes, 3))
    ensures bitHigh * 0x1_0000_0000 + bitLow == 8 * bytes
  {
    var kept, dropped := bytes % 0x2000_0000, bytes / 0x1_0000_0000;
    assert Pow2(3) == 8;
    SignIsLost((Uint32(bytes) * 8) % 0x1_0000_0000);
    Wraps((bytes % 0x1_0000_0000) * 8, kept * 8, bitHigh - 8 * dropped);
  }

  /** Two 32-bit numbers written one after the other are the 64-bit number they split. */
  lemma LengthField(bytes: nat, bitHigh: nat, bitLow: Word)
    requires bitHigh == bytes / 0x2000_0000 && bitLow == Uint32(ShiftLeft(bytes, 3))
    ensures BigEndian(bitHigh, 4) + BigEndian(bitLow, 4) == BigEndian(8 * bytes, 8)
  {
    hide BigEndian, Uint32, ShiftLeft;
    BitCount(bytes, bitHigh, bitLow);
    assert Scale(256, 4) == 0x1_0000_0000;
    BigEndianAppend(bitHigh, bitLow, 4, 0x1_0000_0000);
  }

  /** `toString(16)`, which writes no leading zeros. */
  function ToString16(x: nat): string {
    if x < 16 then [HexDigit(x)] else ToString16(x / 16) + [HexDigit(x % 16)]
  }

  function PadStart(s: string, length: nat, fill: char): string {
    if |s| >= length then s else seq(length - |s|, _ => fill) + s
  }

  lemma PadStartAppend(s: string, length: nat, fill: char, last: char)
    requires |s| <= length
    ensures PadStart(s + [last], length + 1, fill) == PadStart(s, length, fill) + [last]
  {
  }

  lemma {:induction false} PaddedHex(x: nat, count: nat)
    requires count > 0 && x < Scale(16, count)
    ensures |ToString16(x)| <= count && PadStart(ToString16(x), count, '0') == Hex(x, count)
  {
    hide PadStart, HexDigit;
    if x >= 16 {
      PaddedHex(x / 16, count - 1);
      PadStartAppend(ToString16(x / 16), count - 1, '0', HexDigit(x % 16));
    } else {
      PaddedZero(count - 1);
      PadStartAppend("", count - 1, '0', HexDigit(x));
      assert "" + [HexDigit(x)] == ToString16(x);
    }
  }

  lemma {:induction false} PaddedZero(count: nat)
    ensures PadStart("", count, '0') == Hex(0, count)
  {
    if count > 0 {
      PaddedZero(count - 1);
    }
  }

  lemma PaddedWord(w: Word)
    ensures PadStart(ToString16(w), 8, '0') == Hex(w, 8)
  {
    hide ToString16, PadStart, Hex;
    assert Scale(16, 4) == 0x1_0000;
    assert Scale(16, 8) == 0x1_0000_0000;
    PaddedHex(w, 8);
  }

  lemma HashBlocksStep(message: seq<Byte>, block: Block)
    requires |message| % 64 == 0
    ensures HashBlocks(INITIAL, message + block) == Compress(HashBlocks(INITIAL, message), block)
  {
    hide INITIAL, Compress;
    var longer := message + block;
    assert longer[..|longer| - 64] == message && longer[|longer| - 64..] == block;
  }

  lemma Regroup<T>(a: seq<T>, b: seq<T>, c: seq<T>, d: seq<T>, e: seq<T>)
    ensures (a + b) + c + d + e == a + (b + c + d + e)
  {
  }

  function FinalLength(buffered: nat): nat { if buffered < 56 then 64 else 128 }

  /** The bytes of the padded message that follow the last whole block of the message. */
  function Tail(rest: seq<Byte>, length: nat): seq<Byte>
    requires |rest| < 64
  {
    rest + [0x80] + Zeros(FinalLength(|rest|) - |rest| - 9) + BigEndian(8 * length, 8)
  }

  lemma PadIsWholeBlocksAndTail(message: seq<Byte>, whole: nat)
    requires whole == |message| - |message| % 64
    ensures Pad(message) == message[..whole] + Tail(message[whole..], |message|)
  {
    hide BigEndian, Zeros;
    assert ZeroBytes(|message|) == FinalLength(|message| - whole) - (|message| - whole) - 9;
    assert message == message[..whole] + message[whole..];
    Regroup(message[..whole], message[whole..], [0x80], Zeros(ZeroBytes(|message|)), BigEndian(8 * |message|, 8));
  }

  class Sha256 {
    const state: array<Word>
    const buffer: array<Byte>
    var buffered: nat
    var bytes: nat
    ghost var message: seq<Byte>  // everything passed to Update so far

    /** The state words are the hash of these whole blocks. */
    ghost predicate StateIs(blocks: seq<Byte>)
      reads state
      ensures StateIs(blocks) ==> |blocks| % 64 == 0 && state.Length == 8
    {
      |blocks| % 64 == 0 && state.Length == 8 && state[..] == HashBlocks(INITIAL, blocks)
    }

    ghost predicate Absorbed(prefix: seq<Byte>)
      reads this`buffered, state, buffer
      ensures Absorbed(prefix) ==> state.Length == 8 && buffer.Length == 64 && buffered < 64 && buffered <= |prefix|
    {
      && buffer.Length == 64
      && buffered == |prefix| % 64
      && buffer[..buffered] == prefix[|prefix| - buffered..]
      && StateIs(prefix[..|prefix| - buffered])
    }

    ghost predicate Valid()
      reads this, state, buffer
      ensures Valid() ==> bytes == |message|
    {
      bytes == |message| && Absorbed(message)
    }

    /** The bytes still waiting in the buffer. */
    ghost function Pending(): (s: seq<Byte>)
      requires Valid()
      reads this, state, buffer
      ensures |s| == buffered && buffered < 64
    {
      message[|message| - buffered..]
    }

    constructor ()
      ensures Valid() && message == [] && fresh(state) && fresh(buffer)
    {
      state := new Word[8](i requires 0 <= i < 8 => INITIAL[i]);
      buffer := new Byte[64];
      buffered, bytes, message := 0, 0, [];
      new;
      assert state[..] == INITIAL;
    }

    /** `buffer.set(input.subarray(offset, offset + take), buffered)` */
    method Fill(input: array<Byte>, offset: nat, take: nat)
      requires buffer.Length == 64 && buffered + take <= 64 && offset + take <= input.Length && input != buffer
      modifies buffer
      ensures buffer[..buffered + take] == old(buffer[..buffered]) + input[offset..offset + take]
    {
      for i := 0 to take
        invariant buffer[..buffered + i] == old(buffer[..buffered]) + input[offset..offset + i]
      {
        buffer[buffered + i] := input[offset + i];
      }
    }

    /** Buffers take more bytes and runs the compression function when the buffer is full. */
    method Take(ghost prefix: seq<Byte>, input: array<Byte>, offset: nat, take: nat)
      requires Absorbed(prefix) && input != buffer && offset + take <= input.Length
      requires 0 < take && buffered + take <= 64
      modifies this`buffered, state, buffer
      ensures Absorbed(prefix + old(input[offset..offset + take]))
    {
      hide StateIs;
      ghost var longer := prefix + input[offset..offset + take];
      ghost var whole := prefix[..|prefix| - buffered];
      Fill(input, offset, take);
      buffered := buffered + take;
      assert longer == whole + buffer[..buffered];
      if buffered == 64 {
        ghost var block: Block := buffer[0..64];
        assert block == buffer[..buffered];
        ProcessBlock(whole, buffer, 0);
        buffered := 0;
        assert longer[..|longer|] == whole + block;
      } else {
        assert longer[..|longer| - buffered] == whole;
      }
    }

    method Update(input: array<Byte>)
      requires Valid() && input != buffer
      requires bytes + input.Length < 0x20_0000_0000_0000  // exact JavaScript integers
      modifies this, state, buffer
      ensures Valid() && message == old(message) + old(input[..])
    {
      hide Absorbed;
      bytes := bytes + input.Length;
      var offset := 0;
      assert message + input[..0] == message;
      while offset < input.Length
        invariant 0 <= offset <= input.Length
        invariant bytes == old(bytes) + input.Length && message == old(message)
        invariant input[..] == old(input[..])
        invariant Absorbed(message + input[..offset])
      {
        var take := if 64 - buffered < input.Length - offset then 64 - buffered else input.Length - offset;
        ghost var prefix := message + input[..offset];
        assert prefix + input[offset..offset + take] == message + input[..offset + take];
        Take(prefix, input, offset, take);
        offset := offset + take;
      }
      assert input[..input.Length] == input[..];
      message := message + input[..];
    }

    /** The first loops of `process`: sixteen big-endian words, expanded to sixty-four. */
    static method Words(ghost chunk: Block, block: array<Byte>, offset: nat) returns (words: array<Word>)
      requires offset + 64 <= block.Length
      requires chunk == block[offset..offset + 64]
      ensures fresh(words) && words[..] == seq(64, t requires 0 <= t => Schedule(chunk, t))
    {
      hide Expansion, BlockWord, SmallSigma0, SmallSigma1, Add;
      words := new Word[64];
      for index := 0 to 16
        invariant forall t: nat :: t < index ==> words[t] == Schedule(chunk, t)
      {
        words[index] := BlockWord(block[offset..offset + 64], index);
      }
      for index := 16 to 64
        invariant forall t: nat :: t < index ==> words[t] == Schedule(chunk, t)
      {
        ExpansionIsSchedule(words[index - 16], words[index - 15], words[index - 7], words[index - 2]);
        words[index] := Expansion(words[index - 16], words[index - 15], words[index - 7], words[index - 2]);
      }
    }

    static method Temporary1(ghost v: Working, e: Word, f: Word, g: Word, h: Word, k: Word, w: Word) returns (temp1: Word)
      requires (e, f, g, h) == (v.e, v.f, v.g, v.h)
      ensures temp1 == T1(v, k, w)
    {
      hide Uint32, Add, Rotate, BitXor, BitAnd, BitNot, BigSigma1, Ch;
      var sum1 := BitXor(BitXor(Rotate(e, 6), Rotate(e, 11)), Rotate(e, 25));
      ExpressionIsBigSigma1(e);
      var choice := BitXor(BitAnd(e, f), BitAnd(BitNot(e), g));
      ChoiceIsCh(e, f, g);
      temp1 := Uint32(h + sum1 + choice + k + w);
      SumOfFive(h, BigSigma1(e), Ch(e, f, g), k, w);
    }

    static method Temporary2(ghost v: Working, a: Word, b: Word, c: Word) returns (temp2: Word)
      requires (a, b, c) == (v.a, v.b, v.c)
      ensures temp2 == T2(v)
    {
      hide Uint32, Add, Rotate, BitXor, BitAnd, BigSigma0, Maj;
      var sum0 := BitXor(BitXor(Rotate(a, 2), Rotate(a, 13)), Rotate(a, 22));
      ExpressionIsBigSigma0(a);
      var majority := BitXor(BitXor(BitAnd(a, b), BitAnd(a, c)), BitAnd(b, c));
      MajorityIsMaj(a, b, c);
      temp2 := Uint32(sum0 + majority);
      SumOfTwo(BigSigma0(a), Maj(a, b, c));
    }

    /** One turn of the round loop of `process`, which shifts eight local variables. */
    static method TurnRound(v: Working, k: Word, w: Word) returns (r: Working)
      ensures r == Round(v, k, w)
    {
      hide T1, T2, Uint32, Add;
      var a, b, c, d := v.a, v.b, v.c, v.d;
      var e, f, g, h := v.e, v.f, v.g, v.h;
      var temp1 := Temporary1(v, e, f, g, h, k, w);
      var temp2 := Temporary2(v, a, b, c);
      SumOfTwo(d, temp1);
      SumOfTwo(temp1, temp2);
      h := g; g := f; f := e; e := Uint32(d as int + temp1); d := c; c := b; b := a; a := Uint32(temp1 as int + temp2);
      r := Working(a, b, c, d, e, f, g, h);
    }

    static method RunRounds(start: HashValue, words: array<Word>) returns (v: Working)
      requires words.Length == 64
      ensures v == Rounds(start, words[..])
    {
      hide K, Round;
      v := Working(start[0], start[1], start[2], start[3], start[4], start[5], start[6], start[7]);
      for index := 0 to 64
        invariant v == Rounds(start, words[..index])
      {
        v := TurnRound(v, K(index), words[index]);
        assert words[..index + 1][..index] == words[..index];
      }
      assert words[..64] == words[..];
    }

    method AddToState(v: Working)
      requires state.Length == 8
      modifies state
      ensures state[..] == AddWorking(old(state[..]), v)
    {
      hide Uint32, Add;
      ghost var before := state[..];
      var values: seq<Word> := [v.a, v.b, v.c, v.d, v.e, v.f, v.g, v.h];
      for index := 0 to 8
        invariant forall i :: 0 <= i < index ==> state[i] == Add(before[i], values[i])
        invariant forall i :: index <= i < 8 ==> state[i] == before[i]
      {
        SumOfTwo(state[index], values[index]);
        state[index] := Uint32(state[index] as int + values[index]);
      }
    }

    /** Runs the compression function on block[offset..offset + 64]. */
    method Process(block: array<Byte>, offset: nat)
      requires offset + 64 <= block.Length
      requires state.Length == 8
      modifies state
      ensures state[..] == Compress(old(state[..]), old(block[offset..offset + 64]))
    {
      hide Rounds, AddWorking, Schedule;
      var words := Words(block[offset..offset + 64], block, offset);
      var v := RunRounds(state[..], words);
      AddToState(v);
    }

    /** `view.setUint32(offset, value)`, big-endian. */
    static method SetUint32(view: array<Byte>, offset: nat, value: Word)
      requires offset + 4 <= view.Length
      modifies view
      ensures view[..] == old(view[..offset]) + BigEndian(value, 4) + old(view[offset + 4..])
    {
      ghost var digits := BigEndian(value, 4);
      view[offset] := value / 0x100_0000;
      view[offset + 1] := value / 0x1_0000 % 256;
      view[offset + 2] := value / 0x100 % 256;
      view[offset + 3] := value % 256;
      BigEndianDigits(value);
    }

    /** The last one or two blocks: buffered bytes, 0x80, zeros, and the length in bits. */
    method FinalBlocks() returns (final: array<Byte>)
      requires Valid() && bytes < 0x20_0000_0000_0000
      ensures fresh(final)
      ensures final[..] == Tail(Pending(), |message|)
    {
      hide BigEndian, Uint32, ShiftLeft, StateIs;
      final := new Byte[if buffered < 56 then 64 else 128](_ => 0);
      for i := 0 to buffered
        invariant final[..] == buffer[..i] + Zeros(final.Length - i)
      {
        final[i] := buffer[i];
      }
      final[buffered] := 0x80;
      var bitHigh := bytes / 0x2000_0000;
      var bitLow := Uint32(ShiftLeft(bytes, 3));
      LengthField(bytes, bitHigh, bitLow);
      SetUint32(final, final.Length - 8, bitHigh);
      SetUint32(final, final.Length - 4, bitLow);
    }

    /** `Array.from(this.state, ...).join('')` */
    method StateHex() returns (hex: string)
      requires state.Length == 8
      ensures hex == HexWords(state[..])
    {
      hide PadStart, ToString16, Hex;
      hex := "";
      for i := 0 to 8
        invariant hex == HexWords(state[..i])
      {
        PaddedWord(state[i]);
        assert state[..i + 1][..i] == state[..i];
        hex := hex + PadStart(ToString16(state[i]), 8, '0');
      }
      assert state[..8] == state[..];
    }

    method ProcessBlock(ghost blocks: seq<Byte>, block: array<Byte>, offset: nat)
      requires offset + 64 <= block.Length && StateIs(blocks)
      modifies state
      ensures StateIs(blocks + old(block[offset..offset + 64]))
    {
      hide HashBlocks, INITIAL, Compress;
      HashBlocksStep(blocks, block[offset..offset + 64]);
      Process(block, offset);
    }

    /** The loop of `digestHex` over the final blocks. */
    method ProcessAll(ghost head: seq<Byte>, final: array<Byte>)
      requires final.Length % 64 == 0 && StateIs(head)
      modifies state
      ensures StateIs(head + final[..])
    {
      hide StateIs;
      ghost var tail := final[..];
      assert head + tail[..0] == head;
      var offset := 0;
      while offset < final.Length
        invariant offset % 64 == 0 && 0 <= offset <= final.Length
        invariant final[..] == tail
        invariant StateIs(head + tail[..offset])
      {
        assert head + tail[..offset] + tail[offset..offset + 64] == head + tail[..offset + 64];
        ProcessBlock(head + tail[..offset], final, offset);
        offset := offset + 64;
      }
      assert tail[..final.Length] == tail;
    }

    method DigestHex() returns (hex: string)
      requires Valid() && bytes < 0x20_0000_0000_0000
      modifies state
      ensures hex == Sha256Hex(old(message))
    {
      hide HashBlocks, INITIAL, Tail, HexWords, Pad;
      var final := FinalBlocks();
      PadIsWholeBlocksAndTail(message, |message| - buffered);
      ProcessAll(message[..|message| - buffered], final);
      hex := StateHex();
    }
  }

  datatype FileDigest = Digest(hex: string) | Aborted

  const CHUNK_SIZE := 4 * 1024 * 1024

  /** Where slice n of 4 MiB begins. */
  function SliceStart(n: nat): nat { n * 4_194_304 }

  /** The signal is set when one of the file's slices is due. */
  predicate AbortedBeforeEnd(size: nat, aborted: nat -> bool) {
    exists n: nat | n < size :: SliceStart(n) < size && aborted(SliceStart(n))
  }

  method ReadSlice(file: seq<Byte>, offset: nat, end: nat) returns (slice: array<Byte>)
    requires offset <= end <= |file|
    ensures fresh(slice) && slice[..] == file[offset..end]
  {
    slice := new Byte[end - offset](i requires 0 <= i < end - offset => file[offset + i]);
  }

  /** Hashes a file slice by slice; aborted(offset) is the state of the signal before that slice. */
  method Sha256File(file: seq<Byte>, aborted: nat -> bool) returns (r: FileDigest)
    requires |file| < 0x20_0000_0000_0000
    ensures r == if AbortedBeforeEnd(|file|, aborted) then Aborted else Digest(Sha256Hex(file))
  {
    hide Sha256Hex, Sha256.Valid;
    var digest := new Sha256();
    var offset := 0;
    ghost var slices := 0;
    while offset < |file|
      invariant slices >= 0 && offset == SliceStart(slices)
      invariant digest.Valid() && fresh(digest) && fresh(digest.state) && fresh(digest.buffer)
      invariant digest.message == file[..if offset < |file| then offset else |file|]
      invariant forall n: nat :: n < slices ==> !aborted(SliceStart(n))
    {
      if aborted(offset) {
        return Aborted;
      }
      var end := if |file| < offset + CHUNK_SIZE then |file| else offset + CHUNK_SIZE;
      var slice := ReadSlice(file, offset, end);
      digest.Update(slice);
      assert file[..offset] + file[offset..end] == file[..end];
      offset := offset + CHUNK_SIZE;
      slices := slices + 1;
    }
    var hex := digest.DigestHex();
    assert file[..|file|] == file;
    r := Digest(hex);
  }
}
