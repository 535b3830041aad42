/** `$ref` strings: splitting, unescaping and following them into a document. */
module JsonPointer {
  import opened ArtifactDomain

  /** A parsed JSON document; a dictionary keeps its keys in order. */
  datatype Json = Null | Bool(b: bool) | Num(n: int) | Str(s: string) | Arr(items: seq<Json>) | Obj(fields: seq<(string, Json)>)

  /** None stands for a raised exception. */
  function Get(fields: seq<(string, Json)>, key: string): Option<Json> {
    if fields == [] then None
    else if fields[0].0 == key then Some(fields[0].1)
    else Get(fields[1..], key)
  }

  /** The dictionary has the key, with this value; of equal keys the first counts. */
  predicate Has(j: Json, key: string, value: Json) {
    j.Obj? && exists i | 0 <= i < |j.fields| :: j.fields[i] == (key, value) && forall h | 0 <= h < i :: j.fields[h].0 != key
  }

  lemma {:induction false} GetFinds(fields: seq<(string, Json)>, key: string, value: Json)
    ensures Get(fields, key) == Some(value) <==> Has(Obj(fields), key, value)
  {
    if fields != [] {
      var rest := fields[1..];
      GetFinds(rest, key, value);
      if fields[0].0 == key {
        if Has(Obj(fields), key, value) {
          var i :| 0 <= i < |fields| && fields[i] == (key, value) && forall h | 0 <= h < i :: fields[h].0 != key;
          assert i == 0;
        } else {
          assert fields[0] == (key, fields[0].1);
        }
      } else {
        if Has(Obj(rest), key, value) {
          var i :| 0 <= i < |rest| && rest[i] == (key, value) && forall h | 0 <= h < i :: rest[h].0 != key;
          assert fields[i + 1] == (key, value);
          assert forall h | 0 <= h < i + 1 :: fields[h].0 != key;
        }
        if Has(Obj(fields), key, value) {
          var i :| 0 <= i < |fields| && fields[i] == (key, value) && forall h | 0 <= h < i :: fields[h].0 != key;
          assert rest[i - 1] == (key, value);
          assert forall h | 0 <= h < i - 1 :: rest[h] == fields[h + 1];
        }
      }
    }
  }

  /** What get returns is what the dictionary has. */
  lemma GetIsHas(j: Json, key: string)
    requires j.Obj?
    ensures Get(j.fields, key).Some? ==> Has(j, key, Get(j.fields, key).value)
    ensures forall value :: Has(j, key, value) ==> Get(j.fields, key) == Some(value)
  {
    forall value ensures Get(j.fields, key) == Some(value) <==> Has(j, key, value) {
      GetFinds(j.fields, key, value);
    }
    hide Has, Get;
  }

  // ----- Escaping

  /** `s.replace(ab, c)` for a two-character pattern: leftmost occurrences first, none overlapping. */
  function Replace2(s: string, a: char, b: char, c: char): string {
    if |s| < 2 then s
    else if s[0] == a && s[1] == b then [c] + Replace2(s[2..], a, b, c)
    else [s[0]] + Replace2(s[1..], a, b, c)
  }

  /** The unescaping of a reference token: `~1` becomes `/` in the whole token, then `~0` becomes `~`. */
  function Decode(token: string): string { Replace2(Replace2(token, '~', '1', '/'), '~', '0', '~') }

  /** The escaping of section 3 of RFC 6901. */
  function Encode(name: string): string {
    if name == "" then ""
    else (if name[0] == '~' then "~0" else if name[0] == '/' then "~1" else [name[0]]) + Encode(name[1..])
  }

  /** What is left after the first of the two replacements. */
  function HalfEncode(name: string): string {
    if name == "" then "" else (if name[0] == '~' then "~0" else [name[0]]) + HalfEncode(name[1..])
  }

  lemma {:induction false} FirstReplacement(name: string)
    ensures Replace2(Encode(name), '~', '1', '/') == HalfEncode(name)
  {
    if name != "" {
      FirstReplacement(name[1..]);
      var rest := Encode(name[1..]);
      if name[0] == '~' {
        assert Encode(name) == ['~', '0'] + rest;
        assert Encode(name)[1..] == ['0'] + rest;
        ReplaceCons('0', rest, '~', '1', '/');
        assert Encode(name)[1..][1..] == rest;
      } else if name[0] == '/' {
        assert Encode(name) == ['~', '1'] + rest && Encode(name)[2..] == rest;
      } else {
        assert Encode(name) == [name[0]] + rest;
        ReplaceCons(name[0], rest, '~', '1', '/');
      }
    }
  }

  lemma ReplaceCons(x: char, rest: string, a: char, b: char, c: char)
    requires x != a
    ensures Replace2([x] + rest, a, b, c) == [x] + Replace2(rest, a, b, c)
  {
    assert ([x] + rest)[1..] == rest;
  }

  lemma {:induction false} SecondReplacement(name: string)
    ensures Replace2(HalfEncode(name), '~', '0', '~') == name
  {
    if name != "" {
      SecondReplacement(name[1..]);
      var rest := HalfEncode(name[1..]);
      if name[0] == '~' {
        assert HalfEncode(name) == ['~', '0'] + rest && HalfEncode(name)[2..] == rest;
      } else {
        assert HalfEncode(name) == [name[0]] + rest;
        ReplaceCons(name[0], rest, '~', '0', '~');
      }
    }
  }

  /** Unescaping inverts escaping, as section 4 of RFC 6901 requires, for every string. */
  lemma DecodeEncode(name: string)
    ensures Decode(Encode(name)) == name
  {
    hide Replace2, Encode, HalfEncode;
    FirstReplacement(name);
    SecondReplacement(name);
  }

  lemma {:induction false} EncodeHasNoSlash(name: string)
    ensures '/' !in Encode(name)
  {
    if name != "" {
      EncodeHasNoSlash(name[1..]);
    }
  }

  /** A token of section 3 of RFC 6901: no slash, and a tilde only before 0 or 1. */
  predicate ValidToken(token: string) {
    token == "" ||
    if token[0] == '~' then |token| > 1 && (token[1] == '0' || token[1] == '1') && ValidToken(token[2..])
    else token[0] != '/' && ValidToken(token[1..])
  }

  /** Decoding in one pass, as the grammar reads. */
  function OnePass(token: string): string
    requires ValidToken(token)
  {
    if token == "" then ""
    else if token[0] == '~' then [if token[1] == '0' then '~' else '/'] + OnePass(token[2..])
    else [token[0]] + OnePass(token[1..])
  }

  lemma {:induction false} EncodeOnePass(token: string)
    requires ValidToken(token)
    ensures Encode(OnePass(token)) == token
  {
    if token != "" {
      if token[0] == '~' {
        EncodeOnePass(token[2..]);
        assert OnePass(token)[1..] == OnePass(token[2..]);
        assert token == [token[0], token[1]] + token[2..];
      } else {
        EncodeOnePass(token[1..]);
        assert OnePass(token)[1..] == OnePass(token[1..]);
        assert token == [token[0]] + token[1..];
      }
    }
  }

  lemma {:induction false} EncodeIsValid(name: string)
    ensures ValidToken(Encode(name))
  {
    if name != "" {
      EncodeIsValid(name[1..]);
      var rest := Encode(name[1..]);
      if name[0] == '~' || name[0] == '/' {
        assert Encode(name)[2..] == rest;
      } else {
        assert Encode(name)[1..] == rest;
      }
    }
  }

  /** Escaping undoes unescaping exactly on the tokens of the grammar, where it is the one-pass reading. */
  lemma EncodeDecode(token: string)
    ensures Encode(Decode(token)) == token <==> ValidToken(token)
    ensures ValidToken(token) ==> Decode(token) == OnePass(token)
  {
    hide Decode, Encode, OnePass, ValidToken;
    EncodeIsValid(Decode(token));
    if ValidToken(token) {
      EncodeOnePass(token);
      DecodeEncode(OnePass(token));
    }
  }

  // ----- Splitting

  /** `s.split("/")` */
  function Split(s: string): (parts: seq<string>)
    ensures |parts| > 0
  {
    if s == "" then [""]
    else
      var rest := Split(s[1..]);
      if s[0] == '/' then [""] + rest else [[s[0]] + rest[0]] + rest[1..]
  }

  function Join(tokens: seq<string>): string
    requires |tokens| > 0
  {
    if |tokens| == 1 then tokens[0] else tokens[0] + "/" + Join(tokens[1..])
  }

  lemma {:induction false} SplitFirst(token: string, rest: string)
    requires '/' !in token
    ensures Split(token + "/" + rest) == [token] + Split(rest) && Split(token) == [token]
  {
    if token == "" {
      assert "" + "/" + rest == ['/'] + rest;
      assert (['/'] + rest)[1..] == rest;
    } else {
      SplitFirst(token[1..], rest);
      var s := token + "/" + rest;
      assert s[1..] == token[1..] + "/" + rest;
      assert [s[0]] + token[1..] == token;
    }
  }

  lemma {:induction false} SplitJoin(tokens: seq<string>)
    requires |tokens| > 0 && forall i | 0 <= i < |tokens| :: '/' !in tokens[i]
    ensures Split(Join(tokens)) == tokens
  {
    if |tokens| == 1 {
      SplitFirst(tokens[0], "");
    } else {
      SplitJoin(tokens[1..]);
      SplitFirst(tokens[0], Join(tokens[1..]));
    }
  }

  // ----- Following a reference

  /** `resolved[part]` for each part in turn; only dictionaries can be indexed by a string. */
  function Follow(value: Json, names: seq<string>): Option<Json>
    decreases |names|
  {
    if names == [] then Some(value)
    else if !value.Obj? then None
    else
      var next := Get(value.fields, names[0]);
      if next.None? then None else Follow(next.value, names[1..])
  }

  function DecodeAll(tokens: seq<string>): seq<string> {
    seq(|tokens|, i requires 0 <= i < |tokens| => Decode(tokens[i]))
  }

  /** `_resolve_ref` on a reference string; None when it raises. */
  function Resolve(document: Json, reference: string): Option<Json> {
    if |reference| < 2 || reference[..2] != "#/" then None else Follow(document, DecodeAll(Split(reference[2..])))
  }

  /** The loop of `_resolve_ref`. */
  method ResolveReference(document: Json, reference: string) returns (r: Option<Json>)
    ensures r == Resolve(document, reference)
  {
    if |reference| < 2 || reference[..2] != "#/" {
      return None;
    }
    var parts := Split(reference[2..]);
    ghost var names := DecodeAll(parts);
    var resolved := document;
    for i := 0 to |parts|
      invariant Follow(resolved, names[i..]) == Follow(document, names)
    {
      if !resolved.Obj? {
        return None;
      }
      var next := Get(resolved.fields, Decode(parts[i]));
      assert names[i..][0] == Decode(parts[i]) && names[i..][1..] == names[i + 1..];
      if next.None? {
        return None;
      }
      resolved := next.value;
    }
    return Some(resolved);
  }

  function EncodeAll(names: seq<string>): seq<string> {
    seq(|names|, i requires 0 <= i < |names| => Encode(names[i]))
  }

  /** The `$ref` string for a sequence of keys (sections 3 and 6 of RFC 6901). */
  function ReferenceTo(names: seq<string>): string
    requires |names| > 0
  {
    "#/" + Join(EncodeAll(names))
  }

  /** Every value that can be reached by keys is what its reference resolves to, whatever the keys contain. */
  lemma ReferenceResolves(document: Json, names: seq<string>)
    requires |names| > 0
    ensures Resolve(document, ReferenceTo(names)) == Follow(document, names)
  {
    hide Follow, Decode, Encode, Join, Split;
    var tokens := EncodeAll(names);
    forall i | 0 <= i < |tokens| ensures '/' !in tokens[i] && Decode(tokens[i]) == names[i] {
      EncodeHasNoSlash(names[i]);
      DecodeEncode(names[i]);
    }
    SplitJoin(tokens);
    assert ReferenceTo(names)[2..] == Join(tokens);
    assert DecodeAll(tokens) == names;
  }

  lemma {:induction false} JoinSplit(s: string)
    ensures Join(Split(s)) == s && forall i | 0 <= i < |Split(s)| :: '/' !in Split(s)[i]
  {
    if s != "" {
      JoinSplit(s[1..]);
      var rest := Split(s[1..]);
      if s[0] == '/' {
        assert Split(s)[1..] == rest;
        assert s == "" + "/" + s[1..];
      } else {
        assert Split(s)[1..] == rest[1..];
        assert s == [s[0]] + s[1..];
      }
    }
  }

  /** The value is found by looking up one key after the other. */
  ghost predicate LiesAt(document: Json, names: seq<string>, value: Json)
    decreases |names|
  {
    if names == [] then value == document else exists next :: Has(document, names[0], next) && LiesAt(next, names[1..], value)
  }

  lemma {:induction false} FollowMeans(document: Json, names: seq<string>, value: Json)
    ensures Follow(document, names) == Some(value) <==> LiesAt(document, names, value)
    decreases |names|
  {
    if names != [] {
      if document.Obj? {
        GetIsHas(document, names[0]);
        var next := Get(document.fields, names[0]);
        if next.Some? {
          FollowMeans(next.value, names[1..], value);
        }
      }
      hide Get;
    }
  }

  predicate IsToken(token: string) { '/' !in token }

  /** A reference resolves to a value exactly when it is `#/` and tokens between slashes, and the value lies at the
      unescaped tokens; any other reference raises. */
  lemma ResolveExact(document: Json, reference: string, value: Json)
    ensures Resolve(document, reference) == Some(value) <==>
            exists tokens: seq<string> :: |tokens| > 0 && (forall i | 0 <= i < |tokens| :: IsToken(tokens[i]))
                                          && reference == "#/" + Join(tokens) && LiesAt(document, DecodeAll(tokens), value)
  {
    hide Follow, LiesAt, Decode, Split, Join;
    if Resolve(document, reference) == Some(value) {
      var tokens := Split(reference[2..]);
      JoinSplit(reference[2..]);
      FollowMeans(document, DecodeAll(tokens), value);
      assert reference == reference[..2] + reference[2..];
    }
    if tokens: seq<string> :| |tokens| > 0 && (forall i | 0 <= i < |tokens| :: IsToken(tokens[i]))
                              && reference == "#/" + Join(tokens) && LiesAt(document, DecodeAll(tokens), value) {
      SplitJoin(tokens);
      FollowMeans(document, DecodeAll(tokens), value);
      assert reference[2..] == Join(tokens);
    }
  }
}
