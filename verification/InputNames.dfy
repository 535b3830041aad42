/** How the policy reads names: without surrounding white space, with underscores, and in lower case. */
module InputNames {

  function LowerChar(c: char): char { if 'A' <= c <= 'Z' then (c as int + 32) as char else c }
  function Lower(s: string): string { seq(|s|, i requires 0 <= i < |s| => LowerChar(s[i])) }

  /** What `str.strip` removes: the white space of Unicode and four separators. */
  predicate IsSpace(c: char) {
    '\t' <= c <= '\r' || '\U{1c}' <= c <= ' ' || c == '\U{85}' || c == '\U{a0}' || c == '\U{1680}' || '\U{2000}' <= c <= '\U{200a}'
    || c == '\U{2028}' || c == '\U{2029}' || c == '\U{202f}' || c == '\U{205f}' || c == '\U{3000}'
  }

  function StripLeft(s: string): string { if s != "" && IsSpace(s[0]) then StripLeft(s[1..]) else s }
  function StripRight(s: string): string { if s != "" && IsSpace(s[|s| - 1]) then StripRight(s[..|s| - 1]) else s }
  function Underscored(s: string): string { seq(|s|, i requires 0 <= i < |s| => if s[i] == '-' then '_' else s[i]) }

  /** `str.casefold` on the letters that decide: besides the capitals, the long s and the Kelvin sign are all
      that fold to one ASCII letter.  No other character folds to anything that occurs in a forbidden name. */
  function FoldChar(c: char): char {
    if c == '\U{17f}' then 's' else if c == '\U{212a}' then 'k' else LowerChar(c)
  }
  function Folded(s: string): string { seq(|s|, i requires 0 <= i < |s| => FoldChar(s[i])) }

  /** `_normalize_input_name` */
  function Normalize(name: string): string { Folded(Underscored(StripRight(StripLeft(name)))) }

  // ----- What it means for a name of small letters and underscores

  predicate IsPlain(n: string) { n != "" && forall i | 0 <= i < |n| :: 'a' <= n[i] <= 'z' || n[i] == '_' }

  /** The letter in either case, with two more forms of s and k; a hyphen for an underscore. */
  predicate Spells(c: char, d: char) {
    c == d || (d == '_' && c == '-') || ('a' <= d <= 'z' && c as int + 32 == d as int)
    || (d == 's' && c == '\U{17f}') || (d == 'k' && c == '\U{212a}')
  }

  predicate SpellsOut(core: string, n: string) { |core| == |n| && forall i | 0 <= i < |n| :: Spells(core[i], n[i]) }

  /** The characters of White_Space in Unicode, and the separators U+001C to U+001F. */
  predicate IsBlank(c: char) {
    c in {'\t', '\n', '\U{b}', '\U{c}', '\r', '\U{1c}', '\U{1d}', '\U{1e}', '\U{1f}', ' ', '\U{85}', '\U{a0}', '\U{1680}',
          '\U{2000}', '\U{2001}', '\U{2002}', '\U{2003}', '\U{2004}', '\U{2005}', '\U{2006}', '\U{2007}', '\U{2008}', '\U{2009}',
          '\U{200a}', '\U{2028}', '\U{2029}', '\U{202f}', '\U{205f}', '\U{3000}'}
  }

  predicate AllBlank(s: string) { forall i | 0 <= i < |s| :: IsBlank(s[i]) }

  /** The name, between blanks, spells out n. */
  ghost predicate Reads(name: string, n: string) {
    exists left, core, right :: name == left + core + right && AllBlank(left) && AllBlank(right) && SpellsOut(core, n)
  }

  lemma SpacesAreBlank(c: char)
    ensures IsSpace(c) <==> IsBlank(c)
  {
  }

  lemma SpelledIsNoSpace(c: char, d: char)
    requires Spells(c, d) && ('a' <= d <= 'z' || d == '_')
    ensures !IsSpace(c)
  {
  }

  lemma {:induction false} LeftStripped(s: string) returns (left: string)
    ensures s == left + StripLeft(s) && AllBlank(left)
  {
    if s != "" && IsSpace(s[0]) {
      var rest := LeftStripped(s[1..]);
      SpacesAreBlank(s[0]);
      left := [s[0]] + rest;
      hide IsBlank;
      assert s == [s[0]] + s[1..];
    } else {
      left := "";
    }
  }

  lemma {:induction false} RightStripped(s: string) returns (right: string)
    ensures s == StripRight(s) + right && AllBlank(right)
  {
    if s != "" && IsSpace(s[|s| - 1]) {
      var rest := RightStripped(s[..|s| - 1]);
      SpacesAreBlank(s[|s| - 1]);
      right := rest + [s[|s| - 1]];
      hide IsBlank;
      assert s == s[..|s| - 1] + [s[|s| - 1]];
    } else {
      right := "";
    }
  }

  lemma {:induction false} StripsLeft(left: string, s: string)
    requires AllBlank(left) && s != "" && !IsSpace(s[0])
    ensures StripLeft(left + s) == s
  {
    hide IsBlank;
    if left == "" {
      assert left + s == s;
    } else {
      SpacesAreBlank(left[0]);
      StripsLeft(left[1..], s);
      assert (left + s)[1..] == left[1..] + s;
    }
  }

  lemma {:induction false} StripsRight(s: string, right: string)
    requires AllBlank(right) && s != "" && !IsSpace(s[|s| - 1])
    ensures StripRight(s + right) == s
  {
    hide IsBlank;
    if right == "" {
      assert s + right == s;
    } else {
      SpacesAreBlank(right[|right| - 1]);
      StripsRight(s, right[..|right| - 1]);
      assert (s + right)[..|s + right| - 1] == s + right[..|right| - 1];
    }
  }

  lemma FoldSpells(core: string, n: string)
    requires IsPlain(n)
    ensures Folded(Underscored(core)) == n <==> SpellsOut(core, n)
  {
    var f := Folded(Underscored(core));
    forall i | 0 <= i < |core| && i < |n| ensures f[i] == n[i] <==> Spells(core[i], n[i]) {
      FoldsOne(core[i], n[i]);
    }
    hide Spells, FoldChar;
    if SpellsOut(core, n) {
      assert forall i | 0 <= i < |n| :: f[i] == n[i];
    }
  }

  lemma FoldsOne(c: char, d: char)
    requires 'a' <= d <= 'z' || d == '_'
    ensures FoldChar(if c == '-' then '_' else c) == d <==> Spells(c, d)
  {
  }

  /** A name is normalized to n exactly when it spells out n between blanks. */
  lemma NormalizeReads(name: string, n: string)
    requires IsPlain(n)
    ensures Normalize(name) == n <==> Reads(name, n)
  {
    var core := StripRight(StripLeft(name));
    FoldSpells(core, n);
    hide Folded, Underscored, IsSpace, IsBlank, Spells;
    if Normalize(name) == n {
      var left := LeftStripped(name);
      var right := RightStripped(StripLeft(name));
      hide StripLeft, StripRight;
      assert name == left + core + right;
    }
    if Reads(name, n) {
      ReadsCore(name, n);
    }
  }

  lemma ReadsCore(name: string, n: string)
    requires IsPlain(n) && Reads(name, n)
    ensures SpellsOut(StripRight(StripLeft(name)), n)
  {
    hide IsBlank, IsSpace, Spells;
    var left, core, right :| name == left + core + right && AllBlank(left) && AllBlank(right) && SpellsOut(core, n);
    SpelledIsNoSpace(core[0], n[0]);
    SpelledIsNoSpace(core[|core| - 1], n[|n| - 1]);
    assert name == left + (core + right);
    StripsLeft(left, core + right);
    StripsRight(core, right);
  }

  /** The key in small letters is the verb. */
  predicate IsVerb(key: string, verb: string) {
    |key| == |verb| && forall i | 0 <= i < |key| :: key[i] == verb[i] || key[i] as int + 32 == verb[i] as int
  }

  lemma LowerIsVerb(key: string, verb: string)
    requires forall i | 0 <= i < |verb| :: 'a' <= verb[i] <= 'z'
    ensures Lower(key) == verb <==> IsVerb(key, verb)
  {
    if IsVerb(key, verb) {
      assert forall i | 0 <= i < |key| :: Lower(key)[i] == verb[i];
    }
  }
}
