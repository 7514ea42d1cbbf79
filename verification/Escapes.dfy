/**
  What a double-quoted label value may be and what it means (strconv.Unquote as
  units/wukongim/metrics_collector/prometheus.go uses it): the grammar of its pieces, each
  with its spelling and its meaning.
 */
module Escapes {
  import opened Outcomes
  import opened Utf8
  import opened Exposition

  /** A digit of a number in base 8 or 16, as it is written. */
  datatype Digit = Digit(value: nat, upper: bool)

  /** A rune as it stands, a byte that starts none, or an escape. */
  datatype Piece =
    | Rune(text: string)
    | Stray(stray: char)
    | Sign(letter: char)
    | Octal(digits: seq<Digit>)
    | Hex(digits: seq<Digit>)
    | Short(digits: seq<Digit>)
    | Long(digits: seq<Digit>)

  const SIGNS := map['a' := '\U{7}', 'b' := '\U{8}', 'f' := '\U{C}', 'n' := '\n', 'r' := '\r', 't' := '\t', 'v' := '\U{B}',
                     '\\' := '\\', '"' := '"']

  function DigitChar(d: Digit): char {
    if d.value < 10 then ('0' as int + d.value) as char
    else if d.value < 16 then ((if d.upper then 'A' else 'a') as int + d.value - 10) as char
    else '?'
  }

  function Chars(digits: seq<Digit>): string {
    if digits == [] then [] else Chars(digits[..|digits| - 1]) + [DigitChar(digits[|digits| - 1])]
  }

  function NumberOf(digits: seq<Digit>, base: nat): nat {
    if digits == [] then 0 else NumberOf(digits[..|digits| - 1], base) * base + digits[|digits| - 1].value
  }

  function Spelled(p: Piece): string {
    match p
    case Rune(text) => text
    case Stray(stray) => [stray]
    case Sign(letter) => ['\\', letter]
    case Octal(digits) => "\\" + Chars(digits)
    case Hex(digits) => "\\x" + Chars(digits)
    case Short(digits) => "\\u" + Chars(digits)
    case Long(digits) => "\\U" + Chars(digits)
  }

  function Meant(p: Piece): string {
    match p
    case Rune(text) => text
    case Stray(_) => REPLACEMENT
    case Sign(letter) => if letter in SIGNS then [SIGNS[letter]] else []
    case Octal(digits) => if NumberOf(digits, 8) < 256 then [Byte(NumberOf(digits, 8))] else []
    case Hex(digits) => if NumberOf(digits, 16) < 256 then [Byte(NumberOf(digits, 16))] else []
    case Short(digits) => if ValidRune(NumberOf(digits, 16)) then Encode(NumberOf(digits, 16)) else []
    case Long(digits) => if ValidRune(NumberOf(digits, 16)) then Encode(NumberOf(digits, 16)) else []
  }

  predicate DigitsOk(digits: seq<Digit>, base: nat, count: nat) {
    |digits| == count && forall i :: 0 <= i < count ==> digits[i].value < base
  }

  /** `rest` is the text that follows the piece. */
  predicate PieceOk(p: Piece, rest: string) {
    match p
    case Rune(text) => text != "" && RuneLength(text) == |text| && text[0] != '"' && text[0] != '\\' && text[0] != '\n'
    case Stray(stray) => RuneLength([stray] + rest) == 0
    case Sign(letter) => letter in SIGNS
    case Octal(digits) => DigitsOk(digits, 8, 3) && NumberOf(digits, 8) < 256
    case Hex(digits) => DigitsOk(digits, 16, 2)
    case Short(digits) => DigitsOk(digits, 16, 4) && ValidRune(NumberOf(digits, 16))
    case Long(digits) => DigitsOk(digits, 16, 8) && ValidRune(NumberOf(digits, 16))
  }

  function SpellAll(pieces: seq<Piece>): string {
    if pieces == [] then "" else Spelled(pieces[0]) + SpellAll(pieces[1..])
  }

  function MeanAll(pieces: seq<Piece>): string {
    if pieces == [] then "" else Meant(pieces[0]) + MeanAll(pieces[1..])
  }

  /** The pieces, each followed by the others and the closing quote. */
  predicate PiecesOk(pieces: seq<Piece>)
    decreases |pieces|
  {
    pieces == [] || (PieceOk(pieces[0], SpellAll(pieces[1..]) + "\"") && PiecesOk(pieces[1..]))
  }

  // ------------------------------------------------------------------------- digits

  lemma DigitBack(d: Digit)
    requires d.value < 16
    ensures DigitValue(DigitChar(d)) == d.value
    ensures '0' <= DigitChar(d) <= '7' <==> d.value < 8
  {
  }

  lemma {:induction false} DigitsBack(digits: seq<Digit>, base: nat)
    requires base <= 16 && forall i :: 0 <= i < |digits| ==> digits[i].value < base
    ensures |Chars(digits)| == |digits| && Numeral(Chars(digits), base) == Some(NumberOf(digits, base))
  {
    hide DigitValue, DigitChar;
    if digits != [] {
      var n := |digits| - 1;
      DigitsBack(digits[..n], base);
      DigitBack(digits[n]);
      assert Chars(digits)[..n] == Chars(digits[..n]);
    }
  }

  /** A digit that is read was written as one. */
  lemma DigitWritten(c: char) returns (d: Digit)
    requires DigitValue(c) < 16
    ensures d.value == DigitValue(c) && DigitChar(d) == c
  {
    d := Digit(DigitValue(c), 'A' <= c <= 'F');
  }

  lemma {:induction false} DigitsWritten(s: string, base: nat) returns (digits: seq<Digit>)
    requires base <= 16 && Numeral(s, base).Some?
    ensures DigitsOk(digits, base, |s|) && Chars(digits) == s && NumberOf(digits, base) == Numeral(s, base).value
  {
    hide DigitValue, DigitChar;
    if s == [] {
      digits := [];
    } else {
      var n := |s| - 1;
      var front := DigitsWritten(s[..n], base);
      var last := DigitWritten(s[n]);
      digits := front + [last];
      assert digits[..n] == front && s == s[..n] + [s[n]];
    }
  }

  // ----------------------------------------------------------------- one piece ahead

  /** Any piece that is in order reads as what it means, and leaves what follows. */
  lemma PieceReads(p: Piece, rest: string)
    requires PieceOk(p, rest)
    ensures UnquoteBody(Spelled(p) + rest) == Join2(Meant(p), UnquoteBody(rest))
  {
    var s := Spelled(p) + rest;
    match p
    case Rune(text) => RuneReads(text, rest);
    case Stray(stray) => StrayReads(stray, rest);
    case Sign(letter) => EscapeReads(s, Escape(Some(Meant(p)), 2), rest) by { SignEscape(letter, rest); }
    case Octal(digits) => EscapeReads(s, Escape(Some(Meant(p)), 4), rest) by { OctalEscape(digits, rest); }
    case Hex(digits) => EscapeReads(s, Escape(Some(Meant(p)), 4), rest) by { HexEscape(digits, rest); }
    case Short(digits) => EscapeReads(s, Escape(Some(Meant(p)), 6), rest) by { ShortEscape(digits, rest); }
    case Long(digits) => EscapeReads(s, Escape(Some(Meant(p)), 10), rest) by { LongEscape(digits, rest); }
  }

  lemma RuneReads(text: string, rest: string)
    requires text != "" && RuneLength(text) == |text| && text[0] != '"' && text[0] != '\\' && text[0] != '\n'
    ensures UnquoteBody(text + rest) == Join2(text, UnquoteBody(rest))
  {
    RuneAlone(text, rest);
    hide RuneLength;
    assert (text + rest)[..|text|] == text && (text + rest)[|text|..] == rest;
  }

  lemma StrayReads(stray: char, rest: string)
    requires RuneLength([stray] + rest) == 0
    ensures UnquoteBody([stray] + rest) == Join2(REPLACEMENT, UnquoteBody(rest))
  {
    assert stray >= '\U{80}' && ([stray] + rest)[1..] == rest;
    hide RuneLength;
  }

  lemma EscapeReads(s: string, e: Escape, rest: string)
    requires s != [] && s[0] == '\\' && ReadEscape(s) == e && e.bytes.Some? && e.length <= |s| && s[e.length..] == rest
    ensures UnquoteBody(s) == Join2(e.bytes.value, UnquoteBody(rest))
  {
    hide ReadEscape;
  }

  lemma SignEscape(letter: char, rest: string)
    requires letter in SIGNS
    ensures var s := ['\\', letter] + rest; ReadEscape(s) == Escape(Some([SIGNS[letter]]), 2) && s[2..] == rest
  {
  }

  lemma OctalEscape(digits: seq<Digit>, rest: string)
    requires DigitsOk(digits, 8, 3) && NumberOf(digits, 8) < 256
    ensures var s := "\\" + Chars(digits) + rest;
            s != [] && s[0] == '\\' && ReadEscape(s) == Escape(Some([Byte(NumberOf(digits, 8))]), 4) && s[4..] == rest
  {
    var s := "\\" + Chars(digits) + rest;
    DigitsBack(digits, 8);
    DigitsBack(digits[..1], 8);
    DigitBack(digits[0]);
    FirstChar(digits);
    hide Chars, NumberOf, Numeral, Unescape;
    assert s[1..4] == Chars(digits) && s[4..] == rest && s[1] == Chars(digits)[0];
  }

  lemma {:induction false} FirstChar(digits: seq<Digit>)
    requires digits != []
    ensures Chars(digits) != [] && Chars(digits)[0] == DigitChar(digits[0])
  {
    if |digits| > 1 { FirstChar(digits[..|digits| - 1]); }
  }

  lemma HexEscape(digits: seq<Digit>, rest: string)
    requires DigitsOk(digits, 16, 2)
    ensures var s := "\\x" + Chars(digits) + rest;
            && NumberOf(digits, 16) < 256 && s != [] && s[0] == '\\'
            && ReadEscape(s) == Escape(Some([Byte(NumberOf(digits, 16))]), 4) && s[4..] == rest
  {
    var s := "\\x" + Chars(digits) + rest;
    DigitsBack(digits, 16);
    TwoDigits(digits);
    hide Chars, NumberOf, Numeral, Unescape;
    assert s[2..4] == Chars(digits) && s[4..] == rest && s[1] == 'x';
  }

  lemma TwoDigits(digits: seq<Digit>)
    requires DigitsOk(digits, 16, 2)
    ensures NumberOf(digits, 16) < 256
  {
    assert digits[..1][..0] == [];
    assert NumberOf(digits[..1], 16) == digits[0].value;
  }

  lemma ShortEscape(digits: seq<Digit>, rest: string)
    requires DigitsOk(digits, 16, 4) && ValidRune(NumberOf(digits, 16))
    ensures var s := "\\u" + Chars(digits) + rest;
            s != [] && s[0] == '\\' && ReadEscape(s) == Escape(Some(Encode(NumberOf(digits, 16))), 6) && s[6..] == rest
  {
    var s := "\\u" + Chars(digits) + rest;
    DigitsBack(digits, 16);
    hide Chars, NumberOf, Numeral, Unescape, Encode;
    assert s[2..6] == Chars(digits) && s[6..] == rest && s[1] == 'u';
  }

  lemma LongEscape(digits: seq<Digit>, rest: string)
    requires DigitsOk(digits, 16, 8) && ValidRune(NumberOf(digits, 16))
    ensures var s := "\\U" + Chars(digits) + rest;
            s != [] && s[0] == '\\' && ReadEscape(s) == Escape(Some(Encode(NumberOf(digits, 16))), 10) && s[10..] == rest
  {
    var s := "\\U" + Chars(digits) + rest;
    DigitsBack(digits, 16);
    hide Chars, NumberOf, Numeral, Unescape, Encode;
    assert s[2..10] == Chars(digits) && s[10..] == rest && s[1] == 'U';
  }

  /** A text that is read starts with a piece that is in order, or is the closing quote. */
  lemma PieceAhead(s: string) returns (p: Piece, rest: string)
    requires UnquoteBody(s).Some? && s != "\""
    ensures s == Spelled(p) + rest && PieceOk(p, rest) && |rest| < |s|
    ensures UnquoteBody(rest).Some? && UnquoteBody(s) == Some(Meant(p) + UnquoteBody(rest).value)
  {
    if s[0] != '\\' {
      var n := RuneLength(s);
      var m := if n > 0 then n else 1;
      p, rest := if n > 0 then Rune(s[..n]) else Stray(s[0]), s[m..];
      if n > 0 { RunePrefix(s); }
      assert s == s[..m] + s[m..] && s[..1] == [s[0]];
      hide RuneLength;
    } else {
      var e := ReadEscape(s);
      rest := s[e.length..];
      p := EscapeAhead(s);
      hide ReadEscape, Encode;
    }
  }

  lemma EscapeAhead(s: string) returns (p: Piece)
    requires s != [] && s[0] == '\\' && ReadEscape(s).bytes.Some?
    ensures var e := ReadEscape(s);
            && s == Spelled(p) + s[e.length..] && PieceOk(p, s[e.length..]) && e.bytes == Some(Meant(p))
  {
    hide Encode, Numeral, Chars, NumberOf, DigitValue, DigitChar, ValidRune;
    if s[1] == 'x' {
      var digits := DigitsWritten(s[2..4], 16);
      p := Hex(digits);
      assert s == "\\x" + s[2..4] + s[4..];
    } else if s[1] == 'u' {
      var digits := DigitsWritten(s[2..6], 16);
      p := Short(digits);
      assert s == "\\u" + s[2..6] + s[6..];
    } else if s[1] == 'U' {
      var digits := DigitsWritten(s[2..10], 16);
      p := Long(digits);
      assert s == "\\U" + s[2..10] + s[10..];
    } else if '0' <= s[1] <= '7' {
      var digits := DigitsWritten(s[1..4], 8);
      p := Octal(digits);
      assert s == "\\" + s[1..4] + s[4..];
    } else {
      p := Sign(s[1]);
      assert s == ['\\', s[1]] + s[2..];
    }
  }

  // ------------------------------------------------------------------ whole values

  lemma {:induction false} PiecesRead(pieces: seq<Piece>)
    requires PiecesOk(pieces)
    ensures UnquoteBody(SpellAll(pieces) + "\"") == Some(MeanAll(pieces))
    decreases |pieces|
  {
    hide Spelled, Meant, PieceOk, UnquoteBody;
    if pieces == [] {
      NothingQuoted();
    } else {
      var rest := SpellAll(pieces[1..]) + "\"";
      PieceReads(pieces[0], rest);
      PiecesRead(pieces[1..]);
      assert SpellAll(pieces) + "\"" == Spelled(pieces[0]) + rest;
    }
  }

  lemma NothingQuoted()
    ensures UnquoteBody("\"") == Some("") && SpellAll([]) + "\"" == "\"" && MeanAll([]) == ""
  {
  }

  lemma {:induction false} ReadIsPieces(s: string) returns (pieces: seq<Piece>)
    requires UnquoteBody(s).Some?
    ensures PiecesOk(pieces) && s == SpellAll(pieces) + "\"" && UnquoteBody(s) == Some(MeanAll(pieces))
    decreases |s|
  {
    hide Spelled, Meant, PieceOk, UnquoteBody;
    if s == "\"" {
      pieces := [];
      NothingQuoted();
    } else {
      var p, rest := PieceAhead(s);
      var more := ReadIsPieces(rest);
      pieces := [p] + more;
      assert pieces[1..] == more;
      assert Spelled(p) + SpellAll(more) + "\"" == Spelled(p) + (SpellAll(more) + "\"");
    }
  }

  /** The text spells these pieces between quotes, and the value is what they mean. */
  predicate Quotes(s: string, v: string, pieces: seq<Piece>) {
    PiecesOk(pieces) && s == "\"" + SpellAll(pieces) + "\"" && v == MeanAll(pieces)
  }

  lemma UnquotedIsPieces(s: string) returns (pieces: seq<Piece>)
    requires Unquote(s).Some?
    ensures Quotes(s, Unquote(s).value, pieces)
  {
    pieces := ReadIsPieces(s[1..]);
    hide UnquoteBody, SpellAll, MeanAll, PiecesOk;
    assert s == "\"" + s[1..] && "\"" + (SpellAll(pieces) + "\"") == "\"" + SpellAll(pieces) + "\"";
  }

  lemma PiecesUnquote(s: string, v: string, pieces: seq<Piece>)
    requires Quotes(s, v, pieces)
    ensures Unquote(s) == Some(v)
  {
    PiecesRead(pieces);
    hide UnquoteBody, SpellAll, MeanAll, PiecesOk;
    assert s[1..] == SpellAll(pieces) + "\"";
  }

  /** A quoted text stands for a value exactly if it is pieces in order between quotes, and then for what they mean. */
  lemma UnquotesExactly(s: string, v: string)
    ensures Unquote(s) == Some(v) <==> exists pieces :: Quotes(s, v, pieces)
  {
    hide Quotes, Unquote;
    if Unquote(s) == Some(v) {
      var pieces := UnquotedIsPieces(s);
    }
    if pieces :| Quotes(s, v, pieces) { PiecesUnquote(s, v, pieces); }
  }
}
