/** Opaque cursors: the bytes of a row key in base64url without padding (section 5 of RFC 4648). */
module Cursor {
  import opened ArtifactDomain
  import opened Sha256Spec

  function Symbol(v: nat): char
    requires v < 64
  {
    if v < 26 then 'A' + v as char
    else if v < 52 then 'a' + (v - 26) as char
    else if v < 62 then '0' + (v - 52) as char
    else if v == 62 then '-' else '_'
  }

  function Value(c: char): Option<nat> {
    if 'A' <= c <= 'Z' then Some(c as int - 'A' as int)
    else if 'a' <= c <= 'z' then Some(c as int - 'a' as int + 26)
    else if '0' <= c <= '9' then Some(c as int - '0' as int + 52)
    else if c == '-' then Some(62)
    else if c == '_' then Some(63)
    else None
  }

  lemma SymbolValue(v: nat)
    requires v < 64
    ensures Value(Symbol(v)) == Some(v) && Symbol(v) != '='
  {
  }

  /** `base64.urlsafe_b64encode` */
  function Encode(b: seq<Byte>): string {
    if b == [] then ""
    else if |b| == 1 then [Symbol(b[0] / 4), Symbol(b[0] % 4 * 16), '=', '=']
    else if |b| == 2 then [Symbol(b[0] / 4), Symbol(b[0] % 4 * 16 + b[1] / 16), Symbol(b[1] % 16 * 4), '=']
    else [Symbol(b[0] / 4), Symbol(b[0] % 4 * 16 + b[1] / 16), Symbol(b[1] % 16 * 4 + b[2] / 64), Symbol(b[2] % 64)] + Encode(b[3..])
  }

  /** `rstrip("=")` */
  function StripPadding(s: string): string {
    if s != "" && s[|s| - 1] == '=' then StripPadding(s[..|s| - 1]) else s
  }

  /** `cursor + "=" * (-len(cursor) % 4)` */
  function Repad(s: string): string { s + seq(-|s| % 4, _ => '=') }

  function DecodeGroup(a: char, b: char, c: char, d: char, last: bool): Option<seq<Byte>> {
    if Value(a).None? || Value(b).None? then None
    else
      var v, w := Value(a).value, Value(b).value;
      if last && c == '=' && d == '=' then Some([v * 4 + w / 16])
      else if Value(c).None? then None
      else
        var x := Value(c).value;
        if last && d == '=' then Some([v * 4 + w / 16, w % 16 * 16 + x / 4])
        else if Value(d).None? then None
        else Some([v * 4 + w / 16, w % 16 * 16 + x / 4, x % 4 * 64 + Value(d).value])
  }

  /** Decoding of whole groups; padding may end the last one. */
  function Decode(s: string): Option<seq<Byte>> {
    if s == "" then Some([])
    else if |s| < 4 then None
    else
      var head, tail := DecodeGroup(s[0], s[1], s[2], s[3], |s| == 4), Decode(s[4..]);
      if head.Some? && tail.Some? then Some(head.value + tail.value) else None
  }

  lemma DecodeJoin(s: string, head: seq<Byte>, tail: seq<Byte>)
    requires |s| >= 4 && DecodeGroup(s[0], s[1], s[2], s[3], |s| == 4) == Some(head) && Decode(s[4..]) == Some(tail)
    ensures Decode(s) == Some(head + tail)
  {
    hide DecodeGroup;
  }

  lemma {:induction false} DecodeEncode(b: seq<Byte>)
    ensures Decode(Encode(b)) == Some(b)
  {
    hide Symbol, Value, DecodeGroup, Decode;
    if b == [] {
      DecodeEmpty();
    } else if |b| == 1 {
      DecodeOne(b[0]);
      DecodeEmpty();
      assert Encode(b)[4..] == "" && b == [b[0]] + [];
      DecodeJoin(Encode(b), [b[0]], []);
    } else if |b| == 2 {
      DecodeTwo(b[0], b[1]);
      DecodeEmpty();
      assert Encode(b)[4..] == "" && b == [b[0], b[1]] + [];
      DecodeJoin(Encode(b), [b[0], b[1]], []);
    } else {
      DecodeThree(b[0], b[1], b[2], |b| == 3);
      DecodeEncode(b[3..]);
      assert Encode(b)[4..] == Encode(b[3..]) && b == [b[0], b[1], b[2]] + b[3..];
      assert |Encode(b)| == 4 <==> |b| == 3;
      DecodeJoin(Encode(b), [b[0], b[1], b[2]], b[3..]);
    }
  }

  lemma DecodeEmpty()
    ensures Decode("") == Some([])
  {
  }

  lemma DecodeOne(x: Byte)
    ensures DecodeGroup(Symbol(x / 4), Symbol(x % 4 * 16), '=', '=', true) == Some([x])
  {
    hide Symbol, Value;
    SymbolValue(x / 4);
    SymbolValue(x % 4 * 16);
  }

  lemma DecodeTwo(x: Byte, y: Byte)
    ensures DecodeGroup(Symbol(x / 4), Symbol(x % 4 * 16 + y / 16), Symbol(y % 16 * 4), '=', true) == Some([x, y])
  {
    hide Symbol, Value;
    SymbolValue(x / 4);
    SymbolValue(x % 4 * 16 + y / 16);
    SymbolValue(y % 16 * 4);
    SymbolValue(0);
    NoValue();
  }

  lemma NoValue()
    ensures Value('=') == None
  {
  }

  lemma Recombined(b: nat, c: nat, d: nat, e: nat)
    requires b < 4 && c < 16 && d < 16 && e < 4
    ensures (b * 16 + c) / 16 == b && (b * 16 + c) % 16 == c && (d * 4 + e) / 4 == d && (d * 4 + e) % 4 == e
  {
  }

  lemma DecodeThree(x: Byte, y: Byte, z: Byte, last: bool)
    ensures DecodeGroup(Symbol(x / 4), Symbol(x % 4 * 16 + y / 16), Symbol(y % 16 * 4 + z / 64), Symbol(z % 64), last) == Some([x, y, z])
  {
    hide Symbol, Value;
    var x', y', z': int := x, y, z;
    var a, b, c, d, e, f := x' / 4, x' % 4, y' / 16, y' % 16, z' / 64, z' % 64;
    assert x' == 4 * a + b && y' == 16 * c + d && z' == 64 * e + f;
    SymbolValue(a);
    SymbolValue(b * 16 + c);
    SymbolValue(d * 4 + e);
    SymbolValue(f);
    Recombined(b, c, d, e);
  }

  lemma StripOnce(s: string)
    requires s != "" && s[|s| - 1] != '='
    ensures StripPadding(s) == s && StripPadding(s + "=") == s && StripPadding(s + "==") == s
  {
    assert (s + "=")[..|s|] == s;
    assert (s + "==")[..|s| + 1] == s + "=";
  }

  predicate InAlphabet(s: string) { forall i | 0 <= i < |s| :: Value(s[i]).Some? }

  lemma {:induction false} EncodePadding(b: seq<Byte>)
    ensures var s := StripPadding(Encode(b)); Repad(s) == Encode(b) && |s| % 4 != 1 && InAlphabet(s)
  {
    hide Symbol, StripPadding, Value;
    if b == [] {
      StripEmpty();
    } else if |b| == 1 {
      var s := [Symbol(b[0] / 4), Symbol(b[0] % 4 * 16)];
      SymbolValue(b[0] / 4);
      SymbolValue(b[0] % 4 * 16);
      StripOnce(s);
      assert Encode(b) == s + "==";
    } else if |b| == 2 {
      var s := [Symbol(b[0] / 4), Symbol(b[0] % 4 * 16 + b[1] / 16), Symbol(b[1] % 16 * 4)];
      SymbolValue(b[0] / 4);
      SymbolValue(b[0] % 4 * 16 + b[1] / 16);
      SymbolValue(b[1] % 16 * 4);
      StripOnce(s);
      assert Encode(b) == s + "=";
    } else {
      var s := [Symbol(b[0] / 4), Symbol(b[0] % 4 * 16 + b[1] / 16), Symbol(b[1] % 16 * 4 + b[2] / 64), Symbol(b[2] % 64)];
      assert Encode(b) == s + Encode(b[3..]);
      SymbolValue(b[0] / 4);
      SymbolValue(b[0] % 4 * 16 + b[1] / 16);
      SymbolValue(b[1] % 16 * 4 + b[2] / 64);
      SymbolValue(b[2] % 64);
      EncodePadding(b[3..]);
      hide Encode;
      StripAppend(s, Encode(b[3..]));
      RepadAppend(s, StripPadding(Encode(b[3..])));
    }
  }

  lemma RepadAppend(s: string, t: string)
    requires |s| == 4
    ensures Repad(s + t) == s + Repad(t) && |s + t| % 4 == |t| % 4
  {
  }

  lemma StripEmpty()
    ensures StripPadding("") == ""
  {
  }

  lemma {:induction false} StripAppend(s: string, t: string)
    requires s != "" && s[|s| - 1] != '='
    ensures StripPadding(s + t) == s + StripPadding(t)
  {
    if t == "" {
      assert s + t == s;
    } else if t[|t| - 1] == '=' {
      StripAppend(s, t[..|t| - 1]);
      assert (s + t)[..|s + t| - 1] == s + t[..|t| - 1];
    }
  }

  /** A cursor consists of symbols alone, and decodes to the bytes it was made from, on every byte sequence. */
  lemma CursorRoundTrip(b: seq<Byte>)
    ensures Decode(Repad(StripPadding(Encode(b)))) == Some(b)
    ensures |StripPadding(Encode(b))| % 4 != 1 && InAlphabet(StripPadding(Encode(b)))
  {
    hide Encode, Decode, InAlphabet;
    EncodePadding(b);
    DecodeEncode(b);
  }

  /** Table 2 of section 5, in ASCII codes. */
  lemma AlphabetIsUrlSafe(v: nat)
    requires v < 64
    ensures var code := Symbol(v) as int;
            code == if v < 26 then 65 + v else if v < 52 then 97 + v - 26 else if v < 62 then 48 + v - 52 else if v == 62 then 45 else 95
  {
  }

  function SixBits(c: char): nat { if Value(c).Some? then Value(c).value else 0 }

  lemma SixBitsOf(v: nat)
    requires v < 64
    ensures SixBits(Symbol(v)) == v
  {
    SymbolValue(v);
    hide Symbol, Value;
  }

  /** The symbols of a group, six bits each, are the bits of its three bytes from the first on, and groups follow one
      another (section 4). */
  lemma GroupIsBits(b: seq<Byte>, x: int, y: int, z: int)
    requires |b| >= 3 && x == b[0] && y == b[1] && z == b[2]
    ensures var s := Encode(b);
            && |s| >= 4 && s[4..] == Encode(b[3..])
            && SixBits(s[0]) * 0x4_0000 + SixBits(s[1]) * 4096 + SixBits(s[2]) * 64 + SixBits(s[3]) == x * 0x1_0000 + y * 256 + z
  {
    hide Symbol, Value, SixBits;
    var a, b1, c, d, e, f := x / 4, x % 4, y / 16, y % 16, z / 64, z % 64;
    assert x == 4 * a + b1 && y == 16 * c + d && z == 64 * e + f;
    assert Encode(b) == [Symbol(a), Symbol(b1 * 16 + c), Symbol(d * 4 + e), Symbol(f)] + Encode(b[3..]);
    hide Encode;
    SixBitsOf(a);
    SixBitsOf(b1 * 16 + c);
    SixBitsOf(d * 4 + e);
    SixBitsOf(f);
  }

  /** Missing bytes are filled up with zeros, and the symbols they alone would make with `=`. */
  lemma ShortGroupIsBits(x: int, y: int)
    requires 0 <= x < 256 && 0 <= y < 256
    ensures var s := Encode([x, y]);
            |s| == 4 && SixBits(s[0]) * 4096 + SixBits(s[1]) * 64 + SixBits(s[2]) == (x * 256 + y) * 4 && s[3] == '='
    ensures var s := Encode([x]);
            |s| == 4 && SixBits(s[0]) * 64 + SixBits(s[1]) == x * 16 && s[2] == '=' && s[3] == '='
  {
    hide Symbol, Value, SixBits;
    var a, b, c, d := x / 4, x % 4, y / 16, y % 16;
    assert x == 4 * a + b && y == 16 * c + d;
    assert Encode([x, y]) == [Symbol(a), Symbol(b * 16 + c), Symbol(d * 4), '='];
    assert Encode([x]) == [Symbol(a), Symbol(b * 16), '=', '='];
    hide Encode;
    SixBitsOf(a);
    SixBitsOf(b * 16);
    SixBitsOf(b * 16 + c);
    SixBitsOf(d * 4);
  }
}
