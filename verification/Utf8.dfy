/**
  UTF-8 as Go reads and writes it. A Go string is a sequence of bytes, here one
  character below 256 per byte; a byte that starts no valid rune counts for one
  replacement character.
 */
module Utf8 {

  predicate Between(c: char, low: int, high: int) {
    low <= c as int <= high
  }

  predicate Continues(s: string, i: nat) {
    i < |s| && Between(s[i], 0x80, 0xbf)
  }

  /** The length of the rune the string starts with, or 0 if it starts with none. */
  function RuneLength(s: string): (n: nat)
    ensures n <= 4 && n <= |s|
  {
    if s == [] then 0
    else if Between(s[0], 0, 0x7f) then 1
    else if Between(s[0], 0xc2, 0xdf) then if Continues(s, 1) then 2 else 0
    else if Between(s[0], 0xe0, 0xef) then
      if Continues(s, 1) && Continues(s, 2)
         && (s[0] as int == 0xe0 ==> Between(s[1], 0xa0, 0xbf)) && (s[0] as int == 0xed ==> Between(s[1], 0x80, 0x9f))
      then 3 else 0
    else if Between(s[0], 0xf0, 0xf4) then
      if Continues(s, 1) && Continues(s, 2) && Continues(s, 3)
         && (s[0] as int == 0xf0 ==> Between(s[1], 0x90, 0xbf)) && (s[0] as int == 0xf4 ==> Between(s[1], 0x80, 0x8f))
      then 4 else 0
    else 0
  }

  /** utf8.ValidString */
  predicate Valid(s: string)
    decreases |s|
  {
    s == [] || (RuneLength(s) > 0 && Valid(s[RuneLength(s)..]))
  }

  const REPLACEMENT := "\U{EF}\U{BF}\U{BD}"

  /** The string with every byte that starts no rune replaced. */
  function Scrub(s: string): string
    decreases |s|
  {
    if s == [] then []
    else
      var n := RuneLength(s);
      if n > 0 then s[..n] + Scrub(s[n..]) else REPLACEMENT + Scrub(s[1..])
  }

  lemma {:induction false} ScrubKeepsValid(s: string)
    ensures Scrub(s) == s <==> Valid(s)
    decreases |s|
  {
    if s != [] {
      var n := RuneLength(s);
      if n > 0 {
        ScrubKeepsValid(s[n..]);
        assert s == s[..n] + s[n..];
        if Scrub(s) == s { assert Scrub(s[n..]) == Scrub(s)[n..] == s[n..]; }
      } else {
        NoRuneIsReplacement(s);
      }
    }
  }

  lemma NoRuneIsReplacement(s: string)
    requires s != [] && RuneLength(s) == 0
    ensures Scrub(s) != s
  {
    var t := Scrub(s);
    assert t[0] == REPLACEMENT[0] && t[1] == REPLACEMENT[1] && t[2] == REPLACEMENT[2];
  }

  /** A rune is read the same whatever follows it. */
  lemma RuneAlone(rune: string, rest: string)
    requires rune != [] && RuneLength(rune) == |rune|
    ensures RuneLength(rune + rest) == |rune|
  {
  }

  lemma RunePrefix(s: string)
    requires RuneLength(s) > 0
    ensures RuneLength(s[..RuneLength(s)]) == RuneLength(s)
  {
  }

  lemma {:induction false} ScrubIsValid(s: string)
    ensures Valid(Scrub(s))
    decreases |s|
  {
    if s != [] {
      var n := RuneLength(s);
      var rune, rest := if n > 0 then s[..n] else REPLACEMENT, Scrub(if n > 0 then s[n..] else s[1..]);
      ScrubIsValid(if n > 0 then s[n..] else s[1..]);
      if n > 0 { RunePrefix(s); }
      RuneAlone(rune, rest);
      hide RuneLength;
      assert (rune + rest)[|rune|..] == rest;
    }
  }

  /** The runes of a text, with "" for every byte that starts none. */
  function Runes(s: string): seq<string>
    decreases |s|
  {
    if s == [] then []
    else
      var n := RuneLength(s);
      if n > 0 then [s[..n]] + Runes(s[n..]) else [""] + Runes(s[1..])
  }

  /** The byte at `i` belongs to no rune. */
  predicate Stray(s: string, i: nat)
    decreases |s|
  {
    if s == [] then false
    else
      var n := RuneLength(s);
      if n > 0 then i >= n && Stray(s[n..], i - n) else i == 0 || Stray(s[1..], i - 1)
  }

  /** The texts differ in nothing but which stray bytes they have. */
  ghost predicate Alike(a: string, b: string) {
    && |a| == |b|
    && forall i :: 0 <= i < |a| ==> (Stray(a, i) <==> Stray(b, i)) && (!Stray(a, i) ==> a[i] == b[i])
  }

  /** The length of the first rune, or of the stray byte, that a text starts with. */
  function Width(s: string): (n: nat)
    requires s != []
    ensures 0 < n <= |s|
  {
    if RuneLength(s) > 0 then RuneLength(s) else 1
  }

  lemma StrayRest(s: string, i: nat)
    requires s != []
    ensures Stray(s, i) == if i < Width(s) then RuneLength(s) == 0 else Stray(s[Width(s)..], i - Width(s))
  {
  }

  /** Texts that are alike start alike, and go on alike. */
  lemma AlikeRest(a: string, b: string)
    requires a != [] && Alike(a, b)
    ensures RuneLength(a) == RuneLength(b) && a[..RuneLength(a)] == b[..RuneLength(a)]
    ensures Alike(a[Width(a)..], b[Width(a)..])
  {
    hide Stray;
    var n := RuneLength(a);
    StrayRest(a, 0);
    StrayRest(b, 0);
    if n > 0 {
      forall i | 0 <= i < n ensures a[i] == b[i] { StrayRest(a, i); }
      assert b == a[..n] + b[n..];
      RunePrefix(a);
      RuneAlone(a[..n], b[n..]);
    }
    hide RuneLength;
    var w := Width(a);
    forall i | 0 <= i < |a| - w
      ensures (Stray(a[w..], i) <==> Stray(b[w..], i)) && (!Stray(a[w..], i) ==> a[w..][i] == b[w..][i])
    {
      StrayRest(a, i + w);
      StrayRest(b, i + w);
    }
  }

  lemma AlikeMore(a: string, b: string)
    requires a != [] && b != [] && RuneLength(a) == RuneLength(b) && a[..RuneLength(a)] == b[..RuneLength(a)]
    requires Alike(a[Width(a)..], b[Width(a)..])
    ensures Alike(a, b)
  {
    hide Stray, RuneLength;
    var w := Width(a);
    forall i | 0 <= i < |a|
      ensures (Stray(a, i) <==> Stray(b, i)) && (!Stray(a, i) ==> a[i] == b[i])
    {
      StrayRest(a, i);
      StrayRest(b, i);
      if i >= w { assert a[w..][i - w] == a[i] && b[w..][i - w] == b[i]; } else { assert a[..w][i] == a[i] && b[..w][i] == b[i]; }
    }
  }

  /** Texts have the same runes exactly if they are alike. */
  lemma {:induction false} RunesMeet(a: string, b: string)
    ensures Runes(a) == Runes(b) <==> Alike(a, b)
    decreases |a|
  {
    if a == [] || b == [] {
    } else {
      RunesRest(a);
      RunesRest(b);
      hide Runes, Alike, RuneLength;
      var w := Width(a);
      if Runes(a) == Runes(b) {
        assert Runes(a)[1..] == Runes(b)[1..] && Runes(a)[0] == Runes(b)[0];
        assert |Runes(a)[0]| == RuneLength(a);
        RunesMeet(a[w..], b[w..]);
        AlikeMore(a, b);
      }
      if Alike(a, b) {
        AlikeRest(a, b);
        RunesMeet(a[w..], b[w..]);
      }
    }
  }

  lemma RunesRest(s: string)
    requires s != []
    ensures Runes(s) == [s[..RuneLength(s)]] + Runes(s[Width(s)..])
  {
  }

  lemma {:induction false} ValidHasNoStray(s: string, i: nat)
    requires Valid(s)
    ensures !Stray(s, i)
    decreases |s|
  {
    if s != [] && i >= RuneLength(s) { ValidHasNoStray(s[RuneLength(s)..], i - RuneLength(s)); }
  }

  lemma ValidAlike(a: string, b: string)
    requires Valid(a) && Alike(a, b)
    ensures a == b
  {
    forall i | 0 <= i < |a| ensures a[i] == b[i] {
      ValidHasNoStray(a, i);
    }
  }

  predicate ValidRune(v: nat) {
    v < 0xd800 || 0xdfff < v <= 0x10ffff
  }

  function Byte(n: nat): char
    requires n < 256
  {
    n as char
  }

  /** utf8.AppendRune, for a valid rune. */
  function Encode(v: nat): string
    requires ValidRune(v)
  {
    if v < 0x80 then [Byte(v)]
    else if v < 0x800 then [Byte(0xc0 + v / 0x40), Byte(0x80 + v % 0x40)]
    else if v < 0x10000 then [Byte(0xe0 + v / 0x1000), Byte(0x80 + v / 0x40 % 0x40), Byte(0x80 + v % 0x40)]
    else [Byte(0xf0 + v / 0x40000), Byte(0x80 + v / 0x1000 % 0x40), Byte(0x80 + v / 0x40 % 0x40), Byte(0x80 + v % 0x40)]
  }

  /** What is appended for a valid rune is one rune, read back whole. */
  lemma EncodeIsRune(v: nat)
    requires ValidRune(v)
    ensures RuneLength(Encode(v)) == |Encode(v)| && Valid(Encode(v))
  {
    EncodeLength(v);
    hide RuneLength, Encode;
    assert Encode(v)[|Encode(v)|..] == [];
  }

  lemma EncodeLength(v: nat)
    requires ValidRune(v)
    ensures Encode(v) != [] && RuneLength(Encode(v)) == |Encode(v)|
  {
    if v < 0x800 {
      ShortEncode(v);
    } else if v < 0x10000 {
      ThreeEncode(v);
    } else {
      FourEncode(v);
    }
  }

  lemma ShortEncode(v: nat)
    requires v < 0x800
    ensures Encode(v) != [] && RuneLength(Encode(v)) == |Encode(v)|
  {
  }

  lemma ThreeEncode(v: nat)
    requires ValidRune(v) && 0x800 <= v < 0x10000
    ensures |Encode(v)| == 3 == RuneLength(Encode(v))
  {
    assert v / 0x1000 == 0 ==> v / 0x40 % 0x40 >= 0x20;
    assert v / 0x1000 == 13 ==> v / 0x40 % 0x40 < 0x20;
  }

  lemma FourEncode(v: nat)
    requires ValidRune(v) && 0x10000 <= v
    ensures |Encode(v)| == 4 == RuneLength(Encode(v))
  {
    assert v / 0x40000 == 0 ==> v / 0x1000 % 0x40 >= 0x10;
    assert v / 0x40000 == 4 ==> v / 0x1000 % 0x40 < 0x10;
  }

  /** The number of a rune: the payload bits of its bytes, in order. */
  function Decoded(rune: string): int {
    match |rune|
    case 1 => rune[0] as int
    case 2 => (rune[0] as int - 0xc0) * 0x40 + (rune[1] as int - 0x80)
    case 3 => (rune[0] as int - 0xe0) * 0x1000 + (rune[1] as int - 0x80) * 0x40 + (rune[2] as int - 0x80)
    case 4 =>
      (rune[0] as int - 0xf0) * 0x40000 + (rune[1] as int - 0x80) * 0x1000 + (rune[2] as int - 0x80) * 0x40 + (rune[3] as int - 0x80)
    case _ => -1
  }

  /** A rune is appended under its own number. */
  lemma EncodeDecodes(v: nat)
    requires ValidRune(v)
    ensures Decoded(Encode(v)) == v
  {
    var a := v / 0x40;
    var b := a / 0x40;
    assert v / 0x1000 == b && v / 0x40000 == b / 0x40;
    assert v == 0x40 * a + v % 0x40 && a == 0x40 * b + a % 0x40 && b == 0x40 * (b / 0x40) + b % 0x40;
  }
}
