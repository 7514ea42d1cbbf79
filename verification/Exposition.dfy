/**
  The Prometheus text parser of units/wukongim/metrics_collector/prometheus.go,
  and the canonical printing it undoes (Prometheus text exposition format 0.0.4,
  "Text format details"). Text is a sequence of bytes, one character below 256 per
  byte; the scanners look for ASCII characters only, so going by bytes or by runes
  is the same to them. How a number is read is a parameter; so is the filter on
  names.
 */
module Exposition {
  import opened Outcomes
  import opened Strings
  import opened Utf8

  type Labels = map<string, string>

  // ---------------------------------------------------------------- the scanners

  /** Inside a quoted value, and right after a backslash there. */
  datatype Scan = Scan(inQuote: bool, escaped: bool)

  const OPEN := Scan(false, false)
  const QUOTED := Scan(true, false)

  function Step(sc: Scan, c: char): Scan {
    if sc.escaped then sc.(escaped := false)
    else if sc.inQuote && c == '\\' then sc.(escaped := true)
    else if c == '"' then sc.(inQuote := !sc.inQuote)
    else sc
  }

  predicate Blank(c: char) {
    c == ' ' || c == '\t' || c == '\n' || c == '\r' || c == '\U{C}'
  }

  predicate Comma(c: char) {
    c == ','
  }

  /** The character separates here: it is outside quotes. */
  predicate Separates(sc: Scan, c: char, sep: char -> bool) {
    sc == OPEN && c != '"' && sep(c)
  }

  /** Where the first blank outside quotes is, or -1. */
  function BreakAt(s: string, sc: Scan): (r: int)
    ensures -1 <= r < |s|
  {
    if s == [] then -1
    else if Separates(sc, s[0], Blank) then 0
    else
      var rest := BreakAt(s[1..], Step(sc, s[0]));
      if rest < 0 then -1 else rest + 1
  }

  /** strings.Fields */
  function Fields(s: string): seq<string>
    decreases |s|
  {
    var t := TrimLeft(s);
    TrimLeftShorter(s);
    if t == [] then []
    else
      var n := WordLength(t);
      [t[..n]] + Fields(t[n..])
  }

  function WordLength(s: string): (n: nat)
    ensures n <= |s| && (s != [] && SpaceAhead(s) == 0 ==> n > 0)
  {
    if s == [] || SpaceAhead(s) > 0 then 0 else 1 + WordLength(s[1..])
  }

  lemma {:induction false} TrimLeftShorter(s: string)
    ensures |TrimLeft(s)| <= |s| && SpaceAhead(TrimLeft(s)) == 0
    decreases |s|
  {
    if SpaceAhead(s) > 0 { TrimLeftShorter(s[SpaceAhead(s)..]); }
  }

  predicate IsDigit(c: char) {
    '0' <= c <= '9'
  }

  /** strconv.ParseInt in base ten, as far as success is concerned. */
  predicate IsInt64(s: string) {
    var digits := if s != [] && (s[0] == '+' || s[0] == '-') then s[1..] else s;
    && digits != [] && (forall i :: 0 <= i < |digits| ==> IsDigit(digits[i]))
    && DecimalValue(digits) <= (if s[0] == '-' then 0x8000_0000_0000_0000 else 0x7fff_ffff_ffff_ffff)
  }

  function DecimalValue(s: string): nat {
    if s == [] then 0
    else 10 * DecimalValue(s[..|s| - 1]) + (if IsDigit(s[|s| - 1]) then s[|s| - 1] as int - '0' as int else 0)
  }

  /** The expression and the text of the value; a timestamp is checked and dropped. */
  function SplitSampleLine(line: string): Option<(string, string)> {
    var index := BreakAt(line, OPEN);
    if index < 0 then None
    else
      var expr, rest := TrimSpace(line[..index]), TrimSpace(line[index..]);
      var fields := Fields(rest);
      if expr == "" || rest == "" || |fields| == 0 || |fields| > 2 then None
      else if |fields| == 2 && !IsInt64(fields[1]) then None
      else Some((expr, fields[0]))
  }

  method FindBreak(line: string) returns (index: int)
    ensures index == BreakAt(line, OPEN)
  {
    var inQuote, escaped := false, false;
    for i := 0 to |line|
      invariant BreakAt(line, OPEN) == (var r := BreakAt(line[i..], Scan(inQuote, escaped)); if r < 0 then -1 else r + i)
      invariant escaped ==> inQuote
    {
      assert line[i..][1..] == line[i + 1..];
      var c := line[i];
      if escaped {
        escaped := false;
        continue;
      }
      if inQuote && c == '\\' {
        escaped := true;
        continue;
      }
      if c == '"' {
        inQuote := !inQuote;
        continue;
      }
      if !inQuote && Blank(c) { return i; }
    }
    return -1;
  }

  function Prepend(pairs: seq<string>, rest: Option<seq<string>>): Option<seq<string>> {
    if rest.None? then None else Some(pairs + rest.value)
  }

  /** Split at commas outside quotes; `pending` is what has been read of the current pair. */
  function SplitPairs(pending: string, s: string, sc: Scan): Option<seq<string>>
    decreases |s|
  {
    if s == [] then
      if sc.inQuote || sc.escaped || TrimSpace(pending) == "" then None else Some([TrimSpace(pending)])
    else if Separates(sc, s[0], Comma) then
      if TrimSpace(pending) == "" then None
      else
        Prepend([TrimSpace(pending)], SplitPairs("", s[1..], sc))
    else SplitPairs(pending + [s[0]], s[1..], Step(sc, s[0]))
  }

  lemma PrependNone(rest: Option<seq<string>>)
    ensures Prepend([], rest) == rest
  {
    if rest.Some? { assert [] + rest.value == rest.value; }
  }

  lemma PrependMore(pairs: seq<string>, pair: string, rest: Option<seq<string>>)
    ensures Prepend(pairs, Prepend([pair], rest)) == Prepend(pairs + [pair], rest)
  {
    if rest.Some? { assert pairs + ([pair] + rest.value) == pairs + [pair] + rest.value; }
  }

  method SplitLabelPairs(raw: string) returns (r: Option<seq<string>>)
    ensures r == SplitPairs("", raw, OPEN)
  {
    var pairs, start, inQuote, escaped := [], 0, false, false;
    PrependNone(SplitPairs("", raw, OPEN));
    assert raw[0..0] == "" && raw[0..] == raw;
    for i := 0 to |raw|
      invariant 0 <= start <= i && (escaped ==> inQuote)
      invariant SplitPairs("", raw, OPEN) == Prepend(pairs, SplitPairs(raw[start..i], raw[i..], Scan(inQuote, escaped)))
    {
      assert raw[i..][1..] == raw[i + 1..] && raw[start..i] + [raw[i]] == raw[start..i + 1];
      var c := raw[i];
      if escaped {
        escaped := false;
        continue;
      }
      if inQuote && c == '\\' {
        escaped := true;
        continue;
      }
      if c == '"' {
        inQuote := !inQuote;
        continue;
      }
      if !inQuote && c == ',' {
        var pair := TrimSpace(raw[start..i]);
        if pair == "" { return None; }
        PrependMore(pairs, pair, SplitPairs("", raw[i + 1..], OPEN));
        pairs := pairs + [pair];
        start := i + 1;
        assert raw[start..i + 1] == "";
      }
    }
    assert raw[start..|raw|] == raw[start..];
    if inQuote || escaped { return None; }
    var pair := TrimSpace(raw[start..]);
    if pair == "" { return None; }
    return Some(pairs + [pair]);
  }

  /** Pairs are never empty. */
  lemma {:induction false} PairsAreReal(pending: string, s: string, sc: Scan)
    ensures var r := SplitPairs(pending, s, sc);
            r.Some? ==> r.value != [] && forall i :: 0 <= i < |r.value| ==> r.value[i] != ""
    decreases |s|
  {
    hide TrimSpace;
    if s != [] {
      PairsAreReal("", s[1..], sc);
      PairsAreReal(pending + [s[0]], s[1..], Step(sc, s[0]));
    }
  }

  // ------------------------------------------------------------------ names and values

  predicate IsLetter(c: char) {
    'A' <= c <= 'Z' || 'a' <= c <= 'z' || c == '_'
  }

  predicate IsName(s: string, colon: bool) {
    && s != [] && (IsLetter(s[0]) || (colon && s[0] == ':'))
    && forall i :: 1 <= i < |s| ==> IsLetter(s[i]) || IsDigit(s[i]) || (colon && s[i] == ':')
  }

  predicate IsMetricName(s: string) {
    IsName(s, true)
  }

  predicate IsLabelKey(s: string) {
    IsName(s, false)
  }

  /** The escapes of a double-quoted Go string that are one letter or sign. */
  function Unescape(c: char): Option<char> {
    if c == 'a' then Some('\U{7}')
    else if c == 'b' then Some('\U{8}')
    else if c == 'f' then Some('\U{C}')
    else if c == 'n' then Some('\n')
    else if c == 'r' then Some('\r')
    else if c == 't' then Some('\t')
    else if c == 'v' then Some('\U{B}')
    else if c == '\\' then Some('\\')
    else if c == '"' then Some('"')
    else None
  }

  function DigitValue(c: char): nat {
    if '0' <= c <= '9' then c as int - '0' as int
    else if 'a' <= c <= 'f' then c as int - 'a' as int + 10
    else if 'A' <= c <= 'F' then c as int - 'A' as int + 10
    else 16
  }

  /** The number a text of digits stands for in base 8 or 16, if all are digits. */
  function Numeral(s: string, base: nat): Option<nat> {
    if s == [] then Some(0)
    else
      var d := DigitValue(s[|s| - 1]);
      match Numeral(s[..|s| - 1], base)
      case Some(v) => if d < base then Some(v * base + d) else None
      case None => None
  }

  /** A byte given by its number. */
  function ByteOf(v: Option<nat>): Option<string> {
    match v
    case Some(n) => if n < 256 then Some([Byte(n)]) else None
    case None => None
  }

  /** A rune given by its number. */
  function RuneOf(v: Option<nat>): Option<string> {
    match v
    case Some(n) => if ValidRune(n) then Some(Encode(n)) else None
    case None => None
  }

  datatype Escape = Escape(bytes: Option<string>, length: nat)

  /** What an escape sequence stands for, and how long it is. */
  function ReadEscape(s: string): (e: Escape)
    requires s != []
    ensures 0 < e.length && (e.bytes.Some? ==> e.length <= |s|)
  {
    if |s| == 1 then Escape(None, 1)
    else if s[1] == 'x' then Escape(if |s| < 4 then None else ByteOf(Numeral(s[2..4], 16)), 4)
    else if s[1] == 'u' then Escape(if |s| < 6 then None else RuneOf(Numeral(s[2..6], 16)), 6)
    else if s[1] == 'U' then Escape(if |s| < 10 then None else RuneOf(Numeral(s[2..10], 16)), 10)
    else if '0' <= s[1] <= '7' then Escape(if |s| < 4 then None else ByteOf(Numeral(s[1..4], 8)), 4)
    else
      match Unescape(s[1])
      case Some(c) => Escape(Some([c]), 2)
      case None => Escape(None, 2)
  }

  function Join2(head: string, rest: Option<string>): Option<string> {
    if rest.None? then None else Some(head + rest.value)
  }

  /** Everything after the opening quote, up to a closing quote that ends the text. */
  function UnquoteBody(s: string): Option<string>
    decreases |s|
  {
    if s == [] || s[0] == '\n' then None
    else if s[0] == '"' then if |s| == 1 then Some("") else None
    else if s[0] == '\\' then
      var e := ReadEscape(s);
      if e.bytes.None? then None else Join2(e.bytes.value, UnquoteBody(s[e.length..]))
    else
      var n := RuneLength(s);
      if n > 0 then Join2(s[..n], UnquoteBody(s[n..])) else Join2(REPLACEMENT, UnquoteBody(s[1..]))
  }

  /** strconv.Unquote of a double-quoted text. */
  function Unquote(s: string): Option<string> {
    if |s| < 2 || s[0] != '"' || s[|s| - 1] != '"' then None else UnquoteBody(s[1..])
  }

  /** Where the character first is, or -1. */
  function IndexOf(s: string, c: char): (r: int)
    ensures -1 <= r < |s|
    ensures r >= 0 ==> s[r] == c && c !in s[..r]
    ensures r < 0 ==> c !in s
  {
    if s == [] then -1
    else if s[0] == c then 0
    else
      var rest := IndexOf(s[1..], c);
      if rest < 0 then -1 else rest + 1
  }

  function ParsePair(part: string): Option<(string, string)> {
    var pair := TrimSpace(part);
    var cut := IndexOf(pair, '=');
    if cut < 0 then None
    else
      var key, value := TrimSpace(pair[..cut]), TrimSpace(pair[cut + 1..]);
      if !IsLabelKey(key) then None
      else
        match Unquote(value)
        case None => None
        case Some(v) => Some((key, v))
  }

  /** The labels read from the first pairs. */
  function LabelsOf(parts: seq<string>): Option<Labels> {
    if parts == [] then Some(map[])
    else
      var n := |parts| - 1;
      match (LabelsOf(parts[..n]), ParsePair(parts[n]))
      case (Some(labels), Some((key, value))) => if key in labels then None else Some(labels[key := value])
      case _ => None
  }

  function ParseLabels(raw: string): Option<Labels> {
    var trimmed := TrimSpace(raw);
    if trimmed == "" then Some(map[])
    else
      match SplitPairs("", trimmed, OPEN)
      case None => None
      case Some(parts) => LabelsOf(parts)
  }

  method ReadLabels(raw: string) returns (r: Option<Labels>)
    ensures r == ParseLabels(raw)
  {
    var trimmed := TrimSpace(raw);
    if trimmed == "" { return Some(map[]); }
    var parts := SplitLabelPairs(trimmed);
    if parts.None? { return None; }
    var labels: Labels := map[];
    for i := 0 to |parts.value|
      invariant LabelsOf(parts.value[..i]) == Some(labels)
    {
      assert parts.value[..i + 1][..i] == parts.value[..i];
      match ParsePair(parts.value[i]) {
        case None =>
          LabelsFail(parts.value, i);
          return None;
        case Some((key, value)) =>
          if key in labels {
            LabelsFail(parts.value, i);
            return None;
          }
          labels := labels[key := value];
      }
    }
    assert parts.value[..|parts.value|] == parts.value;
    return Some(labels);
  }

  lemma {:induction false} LabelsFail(parts: seq<string>, i: nat)
    requires i < |parts| && LabelsOf(parts[..i + 1]).None?
    ensures LabelsOf(parts).None?
  {
    hide ParsePair;
    var n := |parts| - 1;
    if i < n {
      assert parts[..n][..i + 1] == parts[..i + 1];
      LabelsFail(parts[..n], i);
    } else {
      assert parts[..i + 1] == parts;
    }
  }

  // ------------------------------------------------------------------ lines and documents

  datatype Sample = Sample(name: string, labels: Labels, value: real)

  function ParseExpr(expr: string): Option<(string, Labels)> {
    var open := IndexOf(expr, '{');
    if open < 0 then if '}' in expr || !IsMetricName(expr) then None else Some((expr, map[]))
    else if expr[|expr| - 1] != '}' || !IsMetricName(expr[..open]) then None
    else
      match ParseLabels(expr[open + 1..|expr| - 1])
      case None => None
      case Some(labels) => Some((expr[..open], labels))
  }

  /** `float` reads a finite number, or nothing. */
  function ParseLine(line: string, float: string -> Option<real>): Option<Sample> {
    match SplitSampleLine(line)
    case None => None
    case Some((expr, rawValue)) =>
      match (float(rawValue), ParseExpr(expr))
      case (Some(value), Some((name, labels))) => Some(Sample(name, labels, value))
      case _ => None
  }

  predicate Skipped(line: string) {
    TrimSpace(line) == "" || TrimSpace(line)[0] == '#'
  }

  /** The samples that pass the filter, and the number of lines that are none. */
  function ParseLines(lines: seq<string>, float: string -> Option<real>, keep: string -> bool): (seq<Sample>, nat) {
    if lines == [] then ([], 0)
    else
      var n := |lines| - 1;
      var (samples, errors) := ParseLines(lines[..n], float, keep);
      if Skipped(lines[n]) then (samples, errors)
      else
        match ParseLine(TrimSpace(lines[n]), float)
        case None => (samples, errors + 1)
        case Some(sample) => (if keep(sample.name) then samples + [sample] else samples, errors)
  }

  /** The line is neither blank nor a comment, and no sample can be read of it. */
  predicate Unread(line: string, float: string -> Option<real>) {
    !Skipped(line) && ParseLine(TrimSpace(line), float).None?
  }

  /** The lines of which nothing can be read, by their places. */
  function UnreadLines(lines: seq<string>, float: string -> Option<real>): set<nat> {
    set i: nat | i < |lines| && Unread(lines[i], float)
  }

  /** The sample read of a line, if there is one and it passes the filter. */
  function Taken(line: string, float: string -> Option<real>, keep: string -> bool): seq<Sample> {
    if Skipped(line) then []
    else
      match ParseLine(TrimSpace(line), float)
      case None => []
      case Some(sample) => if keep(sample.name) then [sample] else []
  }

  function TakenOf(lines: seq<string>, float: string -> Option<real>, keep: string -> bool): seq<Sample> {
    if lines == [] then [] else TakenOf(lines[..|lines| - 1], float, keep) + Taken(lines[|lines| - 1], float, keep)
  }

  /** Every line counts: once among the samples, once among the errors, or it has neither sample nor error. */
  lemma {:induction false} LinesAccounted(lines: seq<string>, float: string -> Option<real>, keep: string -> bool)
    ensures ParseLines(lines, float, keep) == (TakenOf(lines, float, keep), |UnreadLines(lines, float)|)
  {
    hide ParseLine, TrimSpace, Skipped, UnreadLines;
    if lines == [] {
      NoLines(float);
    } else {
      var n := |lines| - 1;
      LinesAccounted(lines[..n], float, keep);
      UnreadMore(lines, float);
      assert TakenOf(lines[..n], float, keep) + [] == TakenOf(lines[..n], float, keep);
    }
  }

  lemma NoLines(float: string -> Option<real>)
    ensures UnreadLines([], float) == {}
  {
  }

  lemma UnreadMore(lines: seq<string>, float: string -> Option<real>)
    requires lines != []
    ensures var n := |lines| - 1;
            |UnreadLines(lines, float)| == |UnreadLines(lines[..n], float)| + (if Unread(lines[n], float) then 1 else 0)
  {
    hide Unread;
    var n: nat := |lines| - 1;
    var before, after := UnreadLines(lines[..n], float), UnreadLines(lines, float);
    assert forall i :: 0 <= i < n ==> lines[..n][i] == lines[i];
    assert after == if Unread(lines[n], float) then before + {n} else before;
  }

  /** The scanner holds this many bytes; a line that fills it ends the scan with an error. */
  const MAX_LINE: nat := 1024 * 1024

  /** The lines before the first that is too long. */
  function Scannable(lines: seq<string>): (n: nat)
    ensures n <= |lines|
  {
    if lines == [] || |lines[0]| >= MAX_LINE then 0 else 1 + Scannable(lines[1..])
  }

  lemma ScannableMore(lines: seq<string>)
    requires lines != []
    ensures Scannable(lines) == if |lines[0]| >= MAX_LINE then 0 else 1 + Scannable(lines[1..])
  {
  }

  /** The scan stops at the first line that is too long, and at no other. */
  lemma {:induction false} ScannableStops(lines: seq<string>)
    ensures var n := Scannable(lines);
            (forall i :: 0 <= i < n ==> |lines[i]| < MAX_LINE) && (n < |lines| ==> |lines[n]| >= MAX_LINE)
  {
    if lines != [] && |lines[0]| < MAX_LINE {
      ScannableStops(lines[1..]);
      assert forall i :: 1 <= i < |lines| ==> lines[i] == lines[1..][i - 1];
    }
  }

  datatype Reading = Reading(samples: seq<Sample>, parseErrors: nat, complete: bool)

  /** What is read of a text, and whether the scanner got to its end. */
  function ParseText(text: string, float: string -> Option<real>, keep: string -> bool): Reading {
    var lines := Split(text, '\n');
    var n := Scannable(lines);
    var (samples, errors) := ParseLines(lines[..n], float, keep);
    Reading(samples, errors, n == |lines|)
  }

  method ReadText(text: string, float: string -> Option<real>, keep: string -> bool)
    returns (samples: seq<Sample>, parseErrors: nat, complete: bool)
    ensures Reading(samples, parseErrors, complete) == ParseText(text, float, keep)
    ensures var lines := Split(text, '\n'); var n := Scannable(lines);
            && samples == TakenOf(lines[..n], float, keep) && parseErrors == |UnreadLines(lines[..n], float)|
            && (complete <==> forall i :: 0 <= i < |lines| ==> |lines[i]| < MAX_LINE)
  {
    hide ParseLine, TrimSpace, Split, TakenOf, UnreadLines, Scannable;
    ScannableStops(Split(text, '\n'));
    LinesAccounted(Split(text, '\n')[..Scannable(Split(text, '\n'))], float, keep);
    samples, parseErrors := [], 0;
    var lines := Split(text, '\n');
    assert lines[0..] == lines;
    for i := 0 to |lines|
      invariant (samples, parseErrors) == ParseLines(lines[..i], float, keep)
      invariant Scannable(lines) == i + Scannable(lines[i..])
    {
      ScannableMore(lines[i..]);
      assert lines[..i + 1][..i] == lines[..i] && lines[i..][1..] == lines[i + 1..];
      if |lines[i]| >= MAX_LINE { return samples, parseErrors, false; }
      var line := TrimSpace(lines[i]);
      if line == "" || line[0] == '#' { continue; }
      match ParseLine(line, float) {
        case None => parseErrors := parseErrors + 1;
        case Some(sample) => if keep(sample.name) { samples := samples + [sample]; }
      }
    }
    assert lines[..|lines|] == lines;
    assert Scannable(lines[|lines|..]) == 0;
    return samples, parseErrors, true;
  }
}
